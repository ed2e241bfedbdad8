/**
 * Shared utilities: escaping text for use inside a regular expression, and
 * the lifetime of the per-scope dependency container.
 */
module SharedUtils {

  import opened Common

  /** The characters `escapeRegExp` prefixes with a backslash. */
  predicate IsRegExpMeta(c: char)
  {
    c in {'.', '*', '+', '?', '^', '=', '!', ':', '$', '{', '}', '(', ')', '|', '[', ']', '/', '\\'}
  }

  function CountMeta(s: string): nat
  {
    if s == [] then 0 else (if IsRegExpMeta(s[0]) then 1 else 0) + CountMeta(s[1..])
  }

  /** Every character of `s` is a literal: a non-metacharacter, or a backslash and a metacharacter. */
  predicate IsLiteralPattern(s: string)
    decreases |s|
  {
    if s == [] then true
    else if s[0] == '\\' then |s| >= 2 && IsRegExpMeta(s[1]) && IsLiteralPattern(s[2..])
    else !IsRegExpMeta(s[0]) && IsLiteralPattern(s[1..])
  }

  /** `str.replace(/([.*+?^=!:${}()|\[\]\/\\])/g, "\\$1")`. */
  function EscapeRegExp(s: string): (r: string)
    ensures |r| == |s| + CountMeta(s)
    ensures IsLiteralPattern(r)
  {
    if s == [] then []
    else if IsRegExpMeta(s[0]) then ['\\', s[0]] + EscapeRegExp(s[1..])
    else
      var rest := EscapeRegExp(s[1..]);
      assert ([s[0]] + rest)[1..] == rest;
      [s[0]] + rest
  }

  /** Drop the backslash in front of each escaped metacharacter. */
  function UnescapeRegExp(s: string): string
    decreases |s|
  {
    if s == [] then []
    else if |s| >= 2 && s[0] == '\\' && IsRegExpMeta(s[1]) then [s[1]] + UnescapeRegExp(s[2..])
    else [s[0]] + UnescapeRegExp(s[1..])
  }

  /** Unescaping the escaped text gives back the text. */
  lemma {:induction false} UnescapeEscape(s: string)
    ensures UnescapeRegExp(EscapeRegExp(s)) == s
  {
    if s != [] {
      UnescapeEscape(s[1..]);
      var rest := EscapeRegExp(s[1..]);
      if IsRegExpMeta(s[0]) {
        assert (['\\', s[0]] + rest)[2..] == rest;
      } else {
        assert ([s[0]] + rest)[1..] == rest;
      }
    }
  }

  /** Text without metacharacters is returned unchanged. */
  lemma {:induction false} EscapeWithoutMeta(s: string)
    requires forall i :: 0 <= i < |s| ==> !IsRegExpMeta(s[i])
    ensures EscapeRegExp(s) == s
    ensures CountMeta(s) == 0
  {
    if s != [] {
      EscapeWithoutMeta(s[1..]);
    }
  }

  /** Escaping changes nothing exactly when there is nothing to escape. */
  lemma EscapeIsIdentityIff(s: string)
    ensures EscapeRegExp(s) == s <==> forall i :: 0 <= i < |s| ==> !IsRegExpMeta(s[i])
  {
    if forall i :: 0 <= i < |s| ==> !IsRegExpMeta(s[i]) {
      EscapeWithoutMeta(s);
    } else {
      var i :| 0 <= i < |s| && IsRegExpMeta(s[i]);
      CountMetaPositive(s, i);
    }
  }

  lemma {:induction false} CountMetaPositive(s: string, i: nat)
    requires i < |s| && IsRegExpMeta(s[i])
    ensures CountMeta(s) > 0
  {
    if i > 0 {
      CountMetaPositive(s[1..], i - 1);
    }
  }

  // ---------------------------------------------------------------------
  // Scoped dependency containers

  /** What the scoped function did: returned or threw, synchronously or via a promise. */
  datatype FuncOutcome = Returned | Threw | Resolved | Rejected

  datatype ScopeEvent = FuncRan(scope: string) | ContainerReset(scope: string)

  /**
   * The container registry: the services registered in each scope, and the
   * order in which scoped functions ran and containers were reset.
   */
  class ScopeRegistry {
    var services: map<string, set<string>>
    var log: seq<ScopeEvent>

    constructor ()
      ensures services == map[] && log == []
    {
      services := map[];
      log := [];
    }

    function Registered(id: string): set<string>
      reads this
    {
      if id in services then services[id] else {}
    }

    /** `Container.of(id)`, then register "logger" and "container" in it. */
    method CreateDiScopedContainer(id: string)
      modifies this
      ensures services == old(services)[id := old(Registered(id)) + {"logger", "container"}]
      ensures log == old(log)
    {
      services := services[id := Registered(id) + {"logger", "container"}];
    }

    method Reset(id: string)
      modifies this
      ensures services == old(services)[id := {}]
      ensures log == old(log) + [ContainerReset(id)]
    {
      services := services[id := {}];
      log := log + [ContainerReset(id)];
    }

    /**
     * `runInScope`: the scope id is the caller's, else a fresh one; the
     * function runs in a new container, which is reset once it has finished
     * (also when it throws, and after the promise settles) unless the caller
     * supplied a (non-empty) scope id.
     */
    method RunInScope(scopeId: Option<string>, freshId: string, func: FuncOutcome)
      returns (id: string, r: Result<(), FuncOutcome>)
      modifies this
      ensures id == (if scopeId.Some? then scopeId.value else freshId)
      ensures var resets := scopeId.None? || scopeId.value == "";
        log == old(log) + [FuncRan(id)] + (if resets then [ContainerReset(id)] else [])
      ensures scopeId.None? || scopeId.value == "" ==> services == old(services)[id := {}]
      ensures scopeId.Some? && scopeId.value != "" ==>
        services == old(services)[id := old(Registered(id)) + {"logger", "container"}]
      ensures r.Failure? <==> func == Threw || func == Rejected
    {
      id := if scopeId.Some? then scopeId.value else freshId;
      CreateDiScopedContainer(id);
      log := log + [FuncRan(id)];
      var isPromise := func == Resolved || func == Rejected;
      r := if func == Threw || func == Rejected then Failure(func) else Success(());
      if isPromise {
        // result.finally(resetContainer)
        if scopeId.None? || scopeId.value == "" {
          Reset(id);
        }
      } else {
        // the finally block
        if scopeId.None? || scopeId.value == "" {
          Reset(id);
        }
      }
    }
  }
}
