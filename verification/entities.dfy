/** The entity extractor: every named pattern is searched in the text and the text of
    its first match is recorded under the pattern's name (`agent/tools/entidades.py`,
    `core/agent/tools/entidades.py`, and the update loop of every `ContextManager`). */
module Entities {

  import opened Wrappers
  import opened Text

  /** The regular-expression engine (`re.search(pattern, text[, re.IGNORECASE])`),
      an oracle: given a pattern, a text and the ignore-case flag it yields the text of
      the leftmost match, or `None` when the pattern does not match. */
  type Engine = (string, string, bool) -> Option<string>

  /** A JSON object of the shape `{name: pattern}`, in insertion order. */
  type Patterns = seq<(string, string)>

  type Entities = map<string, string>

  /** A sound engine only reports substrings of the searched text. */
  ghost predicate MatchesAreSubstrings(engine: Engine) {
    forall pattern, text, ignoreCase :: engine(pattern, text, ignoreCase).Some? ==>
      Contains(text, engine(pattern, text, ignoreCase).value)
  }

  /** The keys of a decoded JSON object are distinct. */
  predicate UniqueKeys(ps: seq<(string, string)>) {
    forall i, j :: 0 <= i < j < |ps| ==> ps[i].0 != ps[j].0
  }

  function KeysOf(ps: seq<(string, string)>): set<string> {
    set i | 0 <= i < |ps| :: ps[i].0
  }

  /** Pattern `j` matches somewhere in `text` (case-sensitively). */
  predicate MatchesAt(engine: Engine, ps: Patterns, text: string, j: int) {
    0 <= j < |ps| && engine(ps[j].1, text, false).Some?
  }

  /** The extraction loop run over `acc`: each matching pattern overwrites its slot. */
  function Absorb(acc: Entities, engine: Engine, ps: Patterns, text: string): Entities
    decreases |ps|
  {
    if ps == [] then acc
    else
      var m := Absorb(acc, engine, ps[..|ps| - 1], text);
      var (name, pattern) := ps[|ps| - 1];
      match engine(pattern, text, false)
      case Some(g) => m[name := g]
      case None => m
  }

  /** What `extract_entities` returns: the loop run over a fresh map. */
  function Found(engine: Engine, ps: Patterns, text: string): Entities {
    Absorb(map[], engine, ps, text)
  }

  /** Running the loop over a stored map is overwriting that map with the fresh result. */
  lemma {:induction false} AbsorbIsOverwrite(acc: Entities, engine: Engine, ps: Patterns, text: string)
    ensures Absorb(acc, engine, ps, text) == acc + Found(engine, ps, text)
    decreases |ps|
  {
    if ps != [] {
      AbsorbIsOverwrite(acc, engine, ps[..|ps| - 1], text);
    }
  }

  /** The result's keys are exactly the names of the patterns that match. */
  lemma {:induction false} FoundKeys(engine: Engine, ps: Patterns, text: string, name: string)
    ensures name in Found(engine, ps, text) <==>
            exists j :: MatchesAt(engine, ps, text, j) && ps[j].0 == name
    decreases |ps|
  {
    if ps != [] {
      var init := ps[..|ps| - 1];
      FoundKeys(engine, init, text, name);
      if name in Found(engine, init, text) {
        var j :| MatchesAt(engine, init, text, j) && init[j].0 == name;
        assert MatchesAt(engine, ps, text, j);
      }
      if exists j :: MatchesAt(engine, ps, text, j) && ps[j].0 == name {
        var j :| MatchesAt(engine, ps, text, j) && ps[j].0 == name;
        if j < |ps| - 1 {
          assert MatchesAt(engine, init, text, j);
        }
      }
    }
  }

  /** With distinct names, the value under a matching pattern's name is that pattern's match. */
  lemma {:induction false} FoundValue(engine: Engine, ps: Patterns, text: string, j: nat)
    requires UniqueKeys(ps)
    requires MatchesAt(engine, ps, text, j)
    ensures ps[j].0 in Found(engine, ps, text)
    ensures Found(engine, ps, text)[ps[j].0] == engine(ps[j].1, text, false).value
    decreases |ps|
  {
    var init := ps[..|ps| - 1];
    if j < |ps| - 1 {
      assert MatchesAt(engine, init, text, j);
      FoundValue(engine, init, text, j);
    }
  }

  /** Every key of the result names a configured pattern. */
  lemma FoundKeysArePatternNames(engine: Engine, ps: Patterns, text: string)
    ensures Found(engine, ps, text).Keys <= KeysOf(ps)
  {
    forall name | name in Found(engine, ps, text) ensures name in KeysOf(ps) {
      FoundKeys(engine, ps, text, name);
    }
  }

  /** With a sound engine every extracted value is a piece of the text. */
  lemma {:induction false} FoundValuesFromText(engine: Engine, ps: Patterns, text: string)
    requires MatchesAreSubstrings(engine)
    ensures forall name :: name in Found(engine, ps, text) ==> Contains(text, Found(engine, ps, text)[name])
    decreases |ps|
  {
    if ps != [] {
      var init := ps[..|ps| - 1];
      FoundValuesFromText(engine, init, text);
      var (name, pattern) := ps[|ps| - 1];
      var m := engine(pattern, text, false);
      if m.Some? {
        assert Found(engine, ps, text) == Found(engine, init, text)[name := m.value];
        assert Contains(text, m.value);
      } else {
        assert Found(engine, ps, text) == Found(engine, init, text);
      }
    }
  }

  /** `extract_entities(text)`: a fresh dict filled by one pass over the patterns. */
  method ExtractEntities(engine: Engine, patterns: Patterns, text: string) returns (found: Entities)
    ensures found == Found(engine, patterns, text)
    ensures patterns == [] ==> found == map[]
  {
    found := map[];
    for i := 0 to |patterns|
      invariant found == Absorb(map[], engine, patterns[..i], text)
    {
      assert patterns[..i + 1][..i] == patterns[..i];
      var (name, pattern) := patterns[i];
      var m := engine(pattern, text, false);
      if m.Some? {
        found := found[name := m.value];
      }
    }
    assert patterns[..|patterns|] == patterns;
  }
}
