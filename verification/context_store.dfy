/** The per-session context store `ContextManager`, in its three copies
    (`core/agent/tools/context_manager.py`, `agent/context_manager.py`,
    `backend/context_manager.py`). The copies differ only in how a reference phrase is
    recognised, which `ReferenceMatching` selects. */
module ContextStore {

  import opened Wrappers
  import opened Text
  import opened Entities

  /** How `resolve_reference` recognises a reference key in the user's text. */
  datatype ReferenceMatching =
    | RegexIgnoreCase      // `re.search(ref_pattern, text, re.IGNORECASE)`
    | LowercaseSubstring   // `ref in text.lower()`

  /** A JSON object `{reference: entity name}`, in insertion order. */
  type ReferenceMap = seq<(string, string)>

  predicate RefHits(mode: ReferenceMatching, engine: Engine, ref: string, text: string) {
    match mode
    case RegexIgnoreCase => engine(ref, text, true).Some?
    case LowercaseSubstring => Contains(Lower(text), ref)
  }

  /** Entry `i` of the reference map recognises the text and its entity is stored. */
  predicate Applicable(mode: ReferenceMatching, engine: Engine, refs: ReferenceMap,
                       context: Entities, text: string, i: int)
  {
    0 <= i < |refs| && RefHits(mode, engine, refs[i].0, text) && refs[i].1 in context
  }

  /** The answer of `resolve_reference`: the first applicable entry's entity with its
      stored value, or nothing. */
  function Resolved(mode: ReferenceMatching, engine: Engine, refs: ReferenceMap,
                    context: Entities, text: string): (r: Entities)
    ensures r == map[] || exists e :: e in context && r == map[e := context[e]]
  {
    if refs == [] then map[]
    else if RefHits(mode, engine, refs[0].0, text) && refs[0].1 in context then
      map[refs[0].1 := context[refs[0].1]]
    else Resolved(mode, engine, refs[1..], context, text)
  }

  /** The first applicable entry wins, later ones are ignored, and with no applicable
      entry the answer is empty. */
  lemma {:induction false} ResolvedIsFirstApplicable(mode: ReferenceMatching, engine: Engine,
                                                     refs: ReferenceMap, context: Entities, text: string)
    ensures forall i :: Applicable(mode, engine, refs, context, text, i) &&
                        (forall j :: 0 <= j < i ==> !Applicable(mode, engine, refs, context, text, j)) ==>
                        Resolved(mode, engine, refs, context, text) == map[refs[i].1 := context[refs[i].1]]
    ensures (forall i :: !Applicable(mode, engine, refs, context, text, i)) ==>
            Resolved(mode, engine, refs, context, text) == map[]
  {
    if refs != [] {
      ResolvedIsFirstApplicable(mode, engine, refs[1..], context, text);
      forall i | Applicable(mode, engine, refs, context, text, i) &&
                 (forall j :: 0 <= j < i ==> !Applicable(mode, engine, refs, context, text, j))
        ensures Resolved(mode, engine, refs, context, text) == map[refs[i].1 := context[refs[i].1]]
      {
        if i > 0 {
          assert !Applicable(mode, engine, refs, context, text, 0);
          assert Applicable(mode, engine, refs[1..], context, text, i - 1);
          forall j | 0 <= j < i - 1 ensures !Applicable(mode, engine, refs[1..], context, text, j) {
            assert !Applicable(mode, engine, refs, context, text, j + 1);
          }
        }
      }
      if forall i :: !Applicable(mode, engine, refs, context, text, i) {
        assert !Applicable(mode, engine, refs, context, text, 0);
        forall j | 0 <= j < |refs| - 1 ensures !Applicable(mode, engine, refs[1..], context, text, j) {
          assert !Applicable(mode, engine, refs, context, text, j + 1);
        }
      }
    }
  }

  /** An empty context (after `clear_context`) resolves no reference. */
  lemma {:induction false} EmptyContextResolvesNothing(mode: ReferenceMatching, engine: Engine,
                                                       refs: ReferenceMap, text: string)
    ensures Resolved(mode, engine, refs, map[], text) == map[]
  {
    if refs != [] {
      EmptyContextResolvesNothing(mode, engine, refs[1..], text);
    }
  }

  /** In the lower-case-substring copy, a reference key holding an upper-case letter never
      matches, because only the text is lower-cased. */
  lemma UppercaseReferenceNeverHits(engine: Engine, ref: string, text: string, k: nat)
    requires k < |ref| && IsUpper(ref[k])
    ensures !RefHits(LowercaseSubstring, engine, ref, text)
  {
    UppercaseNeverInLowered(text, ref, k);
  }

  /** Extraction overwrites the slot of every matching pattern with that pattern's match. */
  lemma UpdateSetsMatches(engine: Engine, patterns: Patterns, context: Entities, text: string, j: nat)
    requires UniqueKeys(patterns)
    requires MatchesAt(engine, patterns, text, j)
    ensures patterns[j].0 in context + Found(engine, patterns, text)
    ensures (context + Found(engine, patterns, text))[patterns[j].0] == engine(patterns[j].1, text, false).value
  {
    FoundValue(engine, patterns, text, j);
  }

  /** Extraction never removes a key, and a stored entity no matching pattern names keeps its value. */
  lemma UpdateKeepsUnmatched(engine: Engine, patterns: Patterns, context: Entities, text: string, name: string)
    requires name in context
    requires forall j :: MatchesAt(engine, patterns, text, j) ==> patterns[j].0 != name
    ensures context.Keys <= (context + Found(engine, patterns, text)).Keys
    ensures (context + Found(engine, patterns, text))[name] == context[name]
  {
    FoundKeys(engine, patterns, text, name);
  }

  /** The context store of one conversation. */
  class ContextManager {
    const engine: Engine
    const patterns: Patterns
    const referenceMap: ReferenceMap
    const mode: ReferenceMatching
    var context: Entities

    /** Every stored key is the name of a configured pattern. */
    ghost predicate Valid()
      reads this
    {
      UniqueKeys(patterns) && context.Keys <= KeysOf(patterns)
    }

    /** `ContextManager(patterns_path, reference_map)`: the reference map defaults to
        empty when none is given. */
    constructor (engine: Engine, patterns: Patterns, referenceMap: Option<ReferenceMap>, mode: ReferenceMatching)
      requires UniqueKeys(patterns)
      ensures Valid()
      ensures this.engine == engine && this.patterns == patterns && this.mode == mode
      ensures this.referenceMap == (if referenceMap.Some? then referenceMap.value else [])
      ensures context == map[]
    {
      this.engine := engine;
      this.patterns := patterns;
      this.referenceMap := if referenceMap.Some? then referenceMap.value else [];
      this.mode := mode;
      context := map[];
    }

    /** `extract_and_update(text)`: overwrite the slot of every matching pattern and
        return a copy of the whole context. */
    method ExtractAndUpdate(text: string) returns (snapshot: Entities)
      requires Valid()
      modifies this
      ensures Valid()
      ensures context == old(context) + Found(engine, patterns, text)
      ensures snapshot == context
    {
      for i := 0 to |patterns|
        invariant context == Absorb(old(context), engine, patterns[..i], text)
      {
        assert patterns[..i + 1][..i] == patterns[..i];
        var (name, pattern) := patterns[i];
        var m := engine(pattern, text, false);
        if m.Some? {
          context := context[name := m.value];
        }
      }
      assert patterns[..|patterns|] == patterns;
      AbsorbIsOverwrite(old(context), engine, patterns, text);
      FoundKeysArePatternNames(engine, patterns, text);
      snapshot := context;
    }

    /** `resolve_reference(text)`: scan the reference map in order and return the first
        entry that recognises the text and whose entity is stored. */
    method ResolveReference(text: string) returns (r: Entities)
      ensures r == Resolved(mode, engine, referenceMap, context, text)
      ensures r == map[] || exists e :: e in context && r == map[e := context[e]]
    {
      for i := 0 to |referenceMap|
        invariant Resolved(mode, engine, referenceMap[i..], context, text) ==
                  Resolved(mode, engine, referenceMap, context, text)
      {
        assert referenceMap[i..][1..] == referenceMap[i + 1..];
        var (ref, entity) := referenceMap[i];
        var hit := match mode
          case RegexIgnoreCase => engine(ref, text, true).Some?
          case LowercaseSubstring => Contains(Lower(text), ref);
        if hit && entity in context {
          return map[entity := context[entity]];
        }
      }
      return map[];
    }

    /** `get_context()`: a copy of the stored context. */
    method GetContext() returns (snapshot: Entities)
      ensures snapshot == context
    {
      snapshot := context;
    }

    /** `clear_context()`: forget every stored entity. */
    method ClearContext()
      requires Valid()
      modifies this
      ensures Valid()
      ensures context == map[]
    {
      context := map[];
    }
  }
}
