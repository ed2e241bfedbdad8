/**
 * The error middleware: HttpErrors answer with their own status, validation
 * errors are flattened into a dictionary of messages, anything else is a 500.
 */
module ErrorHandler {

  import opened Common
  import opened Strings

  // ---------------------------------------------------------------------
  // A plain object used as a string dictionary: its keys in insertion order
  // (the order `Object.values` reports) and its current values.

  datatype Dict = Dict(keys: seq<string>, vals: map<string, string>)

  const EmptyDict: Dict := Dict([], map[])

  predicate ValidDict(d: Dict)
  {
    && (forall i, j :: 0 <= i < j < |d.keys| ==> d.keys[i] != d.keys[j])
    && (forall k :: k in d.vals ==> k in d.keys)
    && (forall k :: k in d.keys ==> k in d.vals)
  }

  /** `d[k] = v`: a new key goes to the end, an existing key keeps its place. */
  function Put(d: Dict, k: string, v: string): (r: Dict)
    ensures ValidDict(d) ==> ValidDict(r)
  {
    Dict(if k in d.vals then d.keys else d.keys + [k], d.vals[k := v])
  }

  /** `Object.values(d)`. */
  function Values(d: Dict): (r: seq<string>)
    requires ValidDict(d)
    ensures |r| == |d.keys|
    ensures forall i :: 0 <= i < |r| ==> r[i] == d.vals[d.keys[i]]
  {
    seq(|d.keys|, i requires 0 <= i < |d.keys| => d.vals[d.keys[i]])
  }

  /** A sequence of writes, applied in order. */
  type Writes = seq<(string, string)>

  function Apply(d: Dict, ws: Writes): Dict
    decreases |ws|
  {
    if ws == [] then d else Apply(Put(d, ws[0].0, ws[0].1), ws[1..])
  }

  /** `Object.assign(target, ...)` copying the entries of `ks` from `src`, in order. */
  function AssignKeys(d: Dict, ks: seq<string>, src: map<string, string>): Dict
    requires forall k :: k in ks ==> k in src
    decreases |ks|
  {
    if ks == [] then d else AssignKeys(Put(d, ks[0], src[ks[0]]), ks[1..], src)
  }

  function Assign(target: Dict, source: Dict): Dict
    requires ValidDict(source)
  {
    AssignKeys(target, source.keys, source.vals)
  }

  // Closed forms of Apply and AssignKeys.

  function KeysOf(ws: Writes): (r: seq<string>)
    ensures |r| == |ws| && forall i :: 0 <= i < |ws| ==> r[i] == ws[i].0
  {
    seq(|ws|, i requires 0 <= i < |ws| => ws[i].0)
  }

  /** The keys of `ks` not in `seen`, each once, in order of first occurrence. */
  function NewKeys(seen: set<string>, ks: seq<string>): seq<string>
    decreases |ks|
  {
    if ks == [] then []
    else if ks[0] in seen then NewKeys(seen, ks[1..])
    else [ks[0]] + NewKeys(seen + {ks[0]}, ks[1..])
  }

  function ApplyVals(m: map<string, string>, ws: Writes): map<string, string>
    decreases |ws|
  {
    if ws == [] then m else ApplyVals(m[ws[0].0 := ws[0].1], ws[1..])
  }

  lemma ApplyForm(d: Dict, ws: Writes)
    ensures Apply(d, ws).keys == d.keys + NewKeys(d.vals.Keys, KeysOf(ws))
    ensures Apply(d, ws).vals == ApplyVals(d.vals, ws)
  {
    ApplyFormKeys(d, ws);
    ApplyFormVals(d, ws);
  }

  lemma {:induction false} ApplyFormVals(d: Dict, ws: Writes)
    ensures Apply(d, ws).vals == ApplyVals(d.vals, ws)
    decreases |ws|
  {
    if ws != [] {
      ApplyFormVals(Put(d, ws[0].0, ws[0].1), ws[1..]);
    }
  }

  lemma {:induction false} ApplyFormKeys(d: Dict, ws: Writes)
    ensures Apply(d, ws).keys == d.keys + NewKeys(d.vals.Keys, KeysOf(ws))
    decreases |ws|
  {
    if ws == [] {
      assert d.keys + [] == d.keys;
    } else {
      var k := ws[0].0;
      var d' := Put(d, k, ws[0].1);
      var rest := KeysOf(ws[1..]);
      ApplyFormKeys(d', ws[1..]);
      assert Apply(d, ws) == Apply(d', ws[1..]);
      assert d'.keys + NewKeys(d'.vals.Keys, rest) == d.keys + NewKeys(d.vals.Keys, KeysOf(ws)) by {
        PutKeysStep(d, k, ws[0].1, rest);
        assert KeysOf(ws) == [k] + rest;
      }
    }
  }

  /** One write of `ApplyFormKeys`: a new key moves from the pending keys to the end of the dictionary. */
  lemma PutKeysStep(d: Dict, k: string, v: string, rest: seq<string>)
    ensures Put(d, k, v).keys + NewKeys(Put(d, k, v).vals.Keys, rest) == d.keys + NewKeys(d.vals.Keys, [k] + rest)
  {
    var ks := [k] + rest;
    assert ks[0] == k && ks[1..] == rest;
    if k in d.vals {
      assert Put(d, k, v).vals.Keys == d.vals.Keys;
    } else {
      assert Put(d, k, v).vals.Keys == d.vals.Keys + {k};
      assert NewKeys(d.vals.Keys, ks) == [k] + NewKeys(d.vals.Keys + {k}, rest);
      assert (d.keys + [k]) + NewKeys(d.vals.Keys + {k}, rest) == d.keys + ([k] + NewKeys(d.vals.Keys + {k}, rest));
    }
  }

  /** The writes that copy the entries of `ks` from `src`. */
  function Entries(ks: seq<string>, src: map<string, string>): (r: Writes)
    requires forall k :: k in ks ==> k in src
    ensures |r| == |ks| && forall i :: 0 <= i < |ks| ==> r[i] == (ks[i], src[ks[i]])
  {
    seq(|ks|, i requires 0 <= i < |ks| => (ks[i], src[ks[i]]))
  }

  lemma {:induction false} AssignKeysIsApply(d: Dict, ks: seq<string>, src: map<string, string>)
    requires forall k :: k in ks ==> k in src
    ensures AssignKeys(d, ks, src) == Apply(d, Entries(ks, src))
    decreases |ks|
  {
    if ks != [] {
      AssignKeysIsApply(Put(d, ks[0], src[ks[0]]), ks[1..], src);
      assert Entries(ks, src)[1..] == Entries(ks[1..], src);
    }
  }

  lemma {:induction false} LastWriteEntries(ks: seq<string>, src: map<string, string>, k: string)
    requires forall x :: x in ks ==> x in src
    requires forall i, j :: 0 <= i < j < |ks| ==> ks[i] != ks[j]
    ensures LastWrite(Entries(ks, src), k) == if k in ks then Some(src[k]) else None
    decreases |ks|
  {
    if ks != [] {
      LastWriteEntries(ks[1..], src, k);
      assert Entries(ks, src)[1..] == Entries(ks[1..], src);
      assert ks[0] !in ks[1..];
    }
  }

  lemma {:induction false} NewKeysTwice(s: set<string>, t: set<string>, ks: seq<string>)
    ensures NewKeys(s, NewKeys(t, ks)) == NewKeys(s + t, ks)
    decreases |ks|
  {
    if ks != [] {
      var h := ks[0];
      if h in t {
        NewKeysTwice(s, t, ks[1..]);
      } else {
        NewKeysTwice(s, t + {h}, ks[1..]);
        var inner := NewKeys(t + {h}, ks[1..]);
        assert ([h] + inner)[1..] == inner;
        if h in s {
          assert s + (t + {h}) == s + t;
        } else {
          NewKeysTwice(s + {h}, t + {h}, ks[1..]);
          assert (s + {h}) + (t + {h}) == (s + t) + {h};
        }
      }
    }
  }

  lemma {:induction false} NewKeysElements(seen: set<string>, ks: seq<string>)
    ensures forall k :: k in NewKeys(seen, ks) <==> k in ks && k !in seen
    ensures forall i, j :: 0 <= i < j < |NewKeys(seen, ks)| ==> NewKeys(seen, ks)[i] != NewKeys(seen, ks)[j]
    decreases |ks|
  {
    if ks != [] {
      NewKeysElements(seen, ks[1..]);
      NewKeysElements(seen + {ks[0]}, ks[1..]);
    }
  }

  lemma {:induction false} ApplyAppend(d: Dict, a: Writes, b: Writes)
    ensures Apply(d, a + b) == Apply(Apply(d, a), b)
    decreases |a|
  {
    if a == [] {
      assert a + b == b;
    } else {
      assert (a + b)[0] == a[0] && (a + b)[1..] == a[1..] + b;
      ApplyAppend(Put(d, a[0].0, a[0].1), a[1..], b);
    }
  }

  /** Applying the writes keeps a dictionary valid. */
  lemma ApplyValid(d: Dict, ws: Writes)
    requires ValidDict(d)
    ensures ValidDict(Apply(d, ws))
    decreases |ws|
  {
    if ws != [] {
      ApplyValid(Put(d, ws[0].0, ws[0].1), ws[1..]);
    }
  }

  /** The last value written to `k`, if any. */
  function LastWrite(ws: Writes, k: string): Option<string>
  {
    if ws == [] then None
    else if LastWrite(ws[1..], k).Some? then LastWrite(ws[1..], k)
    else if ws[0].0 == k then Some(ws[0].1)
    else None
  }

  lemma {:induction false} ApplyValsLookup(m: map<string, string>, ws: Writes, k: string)
    ensures LastWrite(ws, k).Some? ==> k in ApplyVals(m, ws) && ApplyVals(m, ws)[k] == LastWrite(ws, k).value
    ensures LastWrite(ws, k).None? ==> (k in ApplyVals(m, ws) <==> k in m)
    ensures LastWrite(ws, k).None? && k in m ==> ApplyVals(m, ws)[k] == m[k]
    decreases |ws|
  {
    if ws != [] {
      ApplyValsLookup(m[ws[0].0 := ws[0].1], ws[1..], k);
    }
  }

  /**
   * Copying the dictionary built from a list of writes into `d` has the same
   * effect as performing those writes on `d` directly.
   */
  lemma AssignCollapsed(d: Dict, ws: Writes)
    ensures ValidDict(Apply(EmptyDict, ws))
    ensures Assign(d, Apply(EmptyDict, ws)) == Apply(d, ws)
  {
    ApplyValid(EmptyDict, ws);
    var e := Apply(EmptyDict, ws);
    AssignKeysIsApply(d, e.keys, e.vals);
    var es := Entries(e.keys, e.vals);
    ApplyForm(d, es);
    ApplyForm(d, ws);
    assert e.keys == NewKeys({}, KeysOf(ws)) by {
      EmptyKeys(ws);
    }
    CollapsedKeys(d.vals.Keys, ws, e.keys, e.vals);
    CollapsedVals(d, ws);
  }

  /** The keys of a dictionary built from nothing are the written keys, each once. */
  lemma EmptyKeys(ws: Writes)
    ensures Apply(EmptyDict, ws).keys == NewKeys({}, KeysOf(ws))
  {
    ApplyForm(EmptyDict, ws);
    assert EmptyDict.vals.Keys == {};
    assert [] + NewKeys({}, KeysOf(ws)) == NewKeys({}, KeysOf(ws));
  }

  lemma CollapsedKeys(seen: set<string>, ws: Writes, keys: seq<string>, vals: map<string, string>)
    requires keys == NewKeys({}, KeysOf(ws))
    requires forall k :: k in keys ==> k in vals
    ensures NewKeys(seen, KeysOf(Entries(keys, vals))) == NewKeys(seen, KeysOf(ws))
  {
    assert KeysOf(Entries(keys, vals)) == keys;
    NewKeysTwice(seen, {}, KeysOf(ws));
    assert seen + {} == seen;
  }

  lemma CollapsedVals(d: Dict, ws: Writes)
    requires ValidDict(Apply(EmptyDict, ws))
    ensures
      var e := Apply(EmptyDict, ws);
      ApplyVals(d.vals, Entries(e.keys, e.vals)) == ApplyVals(d.vals, ws)
  {
    var e := Apply(EmptyDict, ws);
    assert e.vals == ApplyVals(map[], ws) by {
      ApplyForm(EmptyDict, ws);
    }
    var lhs := ApplyVals(d.vals, Entries(e.keys, e.vals));
    var rhs := ApplyVals(d.vals, ws);
    forall k
      ensures k in lhs <==> k in rhs
      ensures k in lhs ==> lhs[k] == rhs[k]
    {
      CollapsedValAt(d.vals, ws, e, k);
    }
    assert lhs == rhs;
  }

  /** One key of `CollapsedVals`: both sides end with the key's last write, or its old value. */
  lemma CollapsedValAt(m: map<string, string>, ws: Writes, e: Dict, k: string)
    requires ValidDict(e) && e.vals == ApplyVals(map[], ws)
    ensures
      var lhs := ApplyVals(m, Entries(e.keys, e.vals));
      var rhs := ApplyVals(m, ws);
      (k in lhs <==> k in rhs) && (k in lhs ==> lhs[k] == rhs[k])
  {
    ApplyValsLookup(m, Entries(e.keys, e.vals), k);
    ApplyValsLookup(m, ws, k);
    ApplyValsLookup(map[], ws, k);
    LastWriteEntries(e.keys, e.vals, k);
  }

  // ---------------------------------------------------------------------
  // Validation errors

  /**
   * A class-validator ValidationError; `constraints` lists the values of the
   * constraints object, None when the object is absent.
   */
  datatype ValidationError = ValidationError(
    property: string,
    constraints: Option<seq<string>>,
    children: seq<ValidationError>)

  function KeyFor(parentKey: string, property: string): string
  {
    if parentKey != "" then parentKey + "." + property else property
  }

  /** The writes `formatValidationErrors` performs, in order. */
  function ErrorWrites(errors: seq<ValidationError>, parentKey: string): Writes
    decreases errors
  {
    if errors == [] then []
    else EntryWrites(errors[0], parentKey) + ErrorWrites(errors[1..], parentKey)
  }

  function EntryWrites(error: ValidationError, parentKey: string): Writes
    decreases error
  {
    var key := KeyFor(parentKey, error.property);
    (if error.constraints.Some? then [(key, Join(error.constraints.value, ", "))] else [])
      + ErrorWrites(error.children, key)
  }

  /** The dictionary `formatValidationErrors` returns. */
  function Flatten(errors: seq<ValidationError>, parentKey: string): Dict
  {
    Apply(EmptyDict, ErrorWrites(errors, parentKey))
  }

  lemma {:induction false} ErrorWritesSnoc(errors: seq<ValidationError>, e: ValidationError, parentKey: string)
    ensures ErrorWrites(errors + [e], parentKey) == ErrorWrites(errors, parentKey) + EntryWrites(e, parentKey)
  {
    if errors == [] {
      assert ([e])[1..] == [];
    } else {
      assert (errors + [e])[1..] == errors[1..] + [e];
      ErrorWritesSnoc(errors[1..], e, parentKey);
    }
  }

  lemma {:induction false} WritesPrefixStep(errors: seq<ValidationError>, i: nat, parentKey: string)
    requires i < |errors|
    ensures Apply(EmptyDict, ErrorWrites(errors[..i + 1], parentKey))
      == Apply(Apply(EmptyDict, ErrorWrites(errors[..i], parentKey)), EntryWrites(errors[i], parentKey))
  {
    assert errors[..i + 1] == errors[..i] + [errors[i]];
    ErrorWritesSnoc(errors[..i], errors[i], parentKey);
    ApplyAppend(EmptyDict, ErrorWrites(errors[..i], parentKey), EntryWrites(errors[i], parentKey));
  }

  /** One turn of the loop: the entry's own write, then its children's dictionary merged in. */
  lemma EntryStep(d: Dict, error: ValidationError, parentKey: string)
    ensures ValidDict(Flatten(error.children, KeyFor(parentKey, error.property)))
    ensures
      var key := KeyFor(parentKey, error.property);
      var d1 := if error.constraints.Some? then Put(d, key, Join(error.constraints.value, ", ")) else d;
      (if |error.children| > 0 then Assign(d1, Flatten(error.children, key)) else d1)
        == Apply(d, EntryWrites(error, parentKey))
  {
    var key := KeyFor(parentKey, error.property);
    var own: Writes := if error.constraints.Some? then [(key, Join(error.constraints.value, ", "))] else [];
    var childWrites := ErrorWrites(error.children, key);
    var d1 := if error.constraints.Some? then Put(d, key, Join(error.constraints.value, ", ")) else d;
    assert d1 == Apply(d, own);
    AssignCollapsed(d1, childWrites);
    ApplyAppend(d, own, childWrites);
    if |error.children| == 0 {
      assert childWrites == [];
    }
  }

  method FormatValidationErrors(errors: seq<ValidationError>, parentKey: string) returns (formatted: Dict)
    ensures formatted == Flatten(errors, parentKey)
    ensures ValidDict(formatted)
    decreases errors, 1
  {
    formatted := EmptyDict;
    var i := 0;
    while i < |errors|
      invariant 0 <= i <= |errors|
      invariant formatted == Apply(EmptyDict, ErrorWrites(errors[..i], parentKey))
    {
      formatted := FormatEntry(formatted, errors[i], parentKey);
      WritesPrefixStep(errors, i, parentKey);
      i := i + 1;
    }
    assert errors[..i] == errors;
    ApplyValid(EmptyDict, ErrorWrites(errors, parentKey));
  }

  /** One turn of the loop: the entry's own message, then its children's dictionary merged in. */
  method FormatEntry(d: Dict, error: ValidationError, parentKey: string) returns (formatted: Dict)
    ensures formatted == Apply(d, EntryWrites(error, parentKey))
    decreases error, 0
  {
    var currentKey := KeyFor(parentKey, error.property);
    formatted := d;
    if error.constraints.Some? {
      formatted := Put(formatted, currentKey, Join(error.constraints.value, ", "));
    }
    if |error.children| > 0 {
      var nested := FormatValidationErrors(error.children, currentKey);
      formatted := Assign(formatted, nested);
    }
    EntryStep(d, error, parentKey);
  }

  // ---------------------------------------------------------------------
  // Properties of the flattened dictionary

  /** Some error of the tree carries a constraints object. */
  predicate AnyConstraints(errors: seq<ValidationError>)
    decreases errors
  {
    exists i :: 0 <= i < |errors| && (errors[i].constraints.Some? || AnyConstraints(errors[i].children))
  }

  lemma {:induction false} WritesEmptyIff(errors: seq<ValidationError>, parentKey: string)
    ensures ErrorWrites(errors, parentKey) == [] <==> !AnyConstraints(errors)
    decreases errors
  {
    if errors != [] {
      var e := errors[0];
      WritesEmptyIff(errors[1..], parentKey);
      WritesEmptyIff(e.children, KeyFor(parentKey, e.property));
      if AnyConstraints(errors[1..]) {
        var i :| 0 <= i < |errors[1..]| && (errors[1..][i].constraints.Some? || AnyConstraints(errors[1..][i].children));
        assert errors[i + 1] == errors[1..][i];
      }
      if AnyConstraints(errors) && !AnyConstraints(errors[1..]) {
        var i :| 0 <= i < |errors| && (errors[i].constraints.Some? || AnyConstraints(errors[i].children));
        if i > 0 {
          assert errors[1..][i - 1] == errors[i];
        }
      }
    }
  }

  /**
   * A key is in the flattened dictionary exactly when some error of the tree
   * writes it, and it holds the message of the last such write.
   */
  lemma FlattenLookup(errors: seq<ValidationError>, parentKey: string, k: string)
    ensures k in Flatten(errors, parentKey).vals <==> LastWrite(ErrorWrites(errors, parentKey), k).Some?
    ensures k in Flatten(errors, parentKey).vals ==>
      Flatten(errors, parentKey).vals[k] == LastWrite(ErrorWrites(errors, parentKey), k).value
  {
    var ws := ErrorWrites(errors, parentKey);
    ApplyForm(EmptyDict, ws);
    ApplyValsLookup(map[], ws, k);
  }

  /**
   * The first value of the dictionary belongs to the first key written; when
   * the first error carries constraints that key is its own property path.
   */
  lemma FirstKey(errors: seq<ValidationError>, parentKey: string)
    requires AnyConstraints(errors)
    ensures |Flatten(errors, parentKey).keys| > 0
    ensures Flatten(errors, parentKey).keys[0] == ErrorWrites(errors, parentKey)[0].0
    ensures errors[0].constraints.Some? ==>
      Flatten(errors, parentKey).keys[0] == KeyFor(parentKey, errors[0].property)
  {
    var ws := ErrorWrites(errors, parentKey);
    assert ws != [] by {
      WritesEmptyIff(errors, parentKey);
    }
    assert Flatten(errors, parentKey).keys == NewKeys({}, KeysOf(ws)) by {
      ApplyForm(EmptyDict, ws);
      assert EmptyDict.keys == [] && EmptyDict.vals.Keys == {};
    }
    var kw := KeysOf(ws);
    assert kw[0] == ws[0].0 && kw[0] !in {};
    assert NewKeys({}, kw)[0] == ws[0].0;
    if errors[0].constraints.Some? {
      var key := KeyFor(parentKey, errors[0].property);
      var own := [(key, Join(errors[0].constraints.value, ", "))];
      assert ws == EntryWrites(errors[0], parentKey) + ErrorWrites(errors[1..], parentKey);
      assert EntryWrites(errors[0], parentKey) == own + ErrorWrites(errors[0].children, key);
      assert ws[0] == own[0];
    }
  }

  // ---------------------------------------------------------------------
  // The middleware

  /** What a thrown HttpError carries in its `errors` property. */
  datatype ErrorsField =
    | NoErrors                                                      // no `errors` property
    | NotAnArray                                                    // present but not an array
    | Items(items: seq<ValidationError>, firstIsValidationError: bool)

  /** The value that reached the middleware. */
  datatype Thrown =
    | ThrownHttp(httpCode: int, message: string, errors: ErrorsField)
    | ThrownOther

  /** The JSON body; `data` is always null and is not represented. */
  datatype ErrorBody = ErrorBody(status: string, message: string, errors: Option<Dict>)

  datatype Response = Response(statusCode: int, body: ErrorBody)

  const UnexpectedMessage := "Something went wrong, please try again"
  const InvalidBodyPrefix := "Invalid request body sent. "
  const InvalidBodyFallback := "please check and try again"

  /** `hasValidationErrors`: an array whose first element is a ValidationError. */
  predicate HasValidationErrors(errors: ErrorsField)
  {
    errors.Items? && |errors.items| > 0 && errors.firstIsValidationError
  }

  /**
   * The body `handleValidationErrors` answers with: the flattened errors, and
   * the first of their values after the prefix, or the fallback when there is none.
   */
  function ValidationBody(errors: seq<ValidationError>): ErrorBody
  {
    var d := Flatten(errors, "");
    var message := if |d.keys| > 0 && d.keys[0] in d.vals then d.vals[d.keys[0]] else InvalidBodyFallback;
    ErrorBody("failed", InvalidBodyPrefix + message, Some(d))
  }

  method HandleValidationErrors(errors: seq<ValidationError>) returns (body: ErrorBody)
    ensures body == ValidationBody(errors)
    ensures body.status == "failed"
    ensures body.errors == Some(Flatten(errors, ""))
    ensures AnyConstraints(errors) ==>
      var d := Flatten(errors, "");
      |d.keys| > 0 && d.keys[0] in d.vals && body.message == InvalidBodyPrefix + d.vals[d.keys[0]]
    ensures !AnyConstraints(errors) ==> body.message == InvalidBodyPrefix + InvalidBodyFallback
  {
    var formatted := FormatValidationErrors(errors, "");
    var values := Values(formatted);
    var message := if |values| > 0 then values[0] else InvalidBodyFallback;
    body := ErrorBody("failed", InvalidBodyPrefix + message, Some(formatted));
    WritesEmptyIff(errors, "");
    if AnyConstraints(errors) {
      FirstKey(errors, "");
    } else {
      assert formatted == EmptyDict;
    }
  }

  method HandleHttpError(httpCode: int, message: string, errors: ErrorsField) returns (response: Response)
    ensures response.statusCode == httpCode && response.body.status == "failed"
    ensures !HasValidationErrors(errors) ==> response.body == ErrorBody("failed", message, None)
    ensures HasValidationErrors(errors) ==> response.body == ValidationBody(errors.items)
  {
    if HasValidationErrors(errors) {
      var body := HandleValidationErrors(errors.items);
      response := Response(httpCode, body);
    } else {
      response := Response(httpCode, ErrorBody("failed", message, None));
    }
  }

  /** `AppErrorHandler.error`: an HttpError answers with its own code, anything else with 500. */
  method HandleError(error: Thrown) returns (response: Response)
    ensures error.ThrownOther? ==> response == Response(500, ErrorBody("failed", UnexpectedMessage, None))
    ensures error.ThrownHttp? ==> response.statusCode == error.httpCode
    ensures error.ThrownHttp? && !HasValidationErrors(error.errors) ==>
      response.body == ErrorBody("failed", error.message, None)
    ensures error.ThrownHttp? && HasValidationErrors(error.errors) ==>
      response.body == ValidationBody(error.errors.items)
  {
    if error.ThrownHttp? {
      response := HandleHttpError(error.httpCode, error.message, error.errors);
    } else {
      response := Response(500, ErrorBody("failed", UnexpectedMessage, None));
    }
  }
}
