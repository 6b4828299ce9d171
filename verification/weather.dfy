/** `parseWeatherString` and `getWeatherIcon` of `web/static/cards.js`. The two regular
    expressions the parser uses are read here by their leftmost-then-backtracking-first
    match, written out over character runs. */
module Weather {

  import opened Wrappers
  import opened Text
  import opened Protocol

  /** Every character of `s[i..j]` satisfies `p`. */
  predicate AllIn(s: string, i: nat, j: nat, p: char -> bool)
    requires i <= j <= |s|
  {
    forall k :: i <= k < j ==> p(s[k])
  }

  /** The length of the longest run of characters satisfying `p` starting at `i`. */
  function Run(s: string, i: nat, p: char -> bool): (n: nat)
    requires i <= |s|
    ensures i + n <= |s| && AllIn(s, i, i + n, p)
    ensures i + n == |s| || !p(s[i + n])
    decreases |s| - i
  {
    if i == |s| || !p(s[i]) then 0 else 1 + Run(s, i + 1, p)
  }

  /** A run is at least as long as any stretch of characters satisfying `p`. */
  lemma {:induction false} RunCovers(s: string, i: nat, p: char -> bool, n: nat)
    requires i + n <= |s| && AllIn(s, i, i + n, p)
    ensures Run(s, i, p) >= n
    decreases n
  {
    if n > 0 {
      RunCovers(s, i + 1, p, n - 1);
    }
  }

  /** The lower-case `word` occurs at `i` when the text is read case-insensitively (the `i` flag). */
  predicate WordAt(s: string, i: nat, word: string) {
    i + |word| <= |s| && forall k :: 0 <= k < |word| ==> LowerChar(s[i + k]) == word[k]
  }

  // ---- /(\d+)\s*grados/i ----

  /** The temperature pattern matches at `i` with `d` digits and `w` blanks. */
  predicate TempSplit(s: string, i: nat, d: nat, w: nat) {
    1 <= d && i + d + w <= |s| && AllIn(s, i, i + d, IsDigit) && AllIn(s, i + d, i + d + w, IsSpace)
    && WordAt(s, i + d + w, "grados")
  }

  /** The greedy reading at `i`: all the digits, then all the blanks, then `grados`. */
  function TempGreedy(s: string, i: nat): Option<(nat, nat)>
    requires i <= |s|
  {
    var d := Run(s, i, IsDigit);
    var w := Run(s, i + d, IsSpace);
    if 1 <= d && WordAt(s, i + d + w, "grados") then Some((d, w)) else None
  }

  /** At any position the pattern can match in one way only, the greedy one: fewer digits
      leave a digit where a blank or `g` is needed, fewer blanks leave a blank where `g` is. */
  lemma TempSplitIsGreedy(s: string, i: nat, d: nat, w: nat)
    requires TempSplit(s, i, d, w)
    ensures TempGreedy(s, i) == Some((d, w))
  {
    DigitsAreGreedy(s, i, d, w);
    BlanksAreGreedy(s, i, d, w);
  }

  /** The character after the blanks is the `g` of `grados`. */
  lemma GAfterBlanks(s: string, i: nat, d: nat, w: nat)
    requires TempSplit(s, i, d, w)
    ensures !IsDigit(s[i + d + w]) && !IsSpace(s[i + d + w])
  {
    assert LowerChar(s[i + d + w + 0]) == "grados"[0];
  }

  lemma DigitsAreGreedy(s: string, i: nat, d: nat, w: nat)
    requires TempSplit(s, i, d, w)
    ensures Run(s, i, IsDigit) == d
  {
    GAfterBlanks(s, i, d, w);
    if w > 0 {
      assert IsSpace(s[i + d]);
    }
    assert !IsDigit(s[i + d]);
    RunCovers(s, i, IsDigit, d);
  }

  lemma BlanksAreGreedy(s: string, i: nat, d: nat, w: nat)
    requires TempSplit(s, i, d, w)
    ensures Run(s, i + d, IsSpace) == w
  {
    GAfterBlanks(s, i, d, w);
    RunCovers(s, i + d, IsSpace, w);
  }

  datatype TempHit = TempHit(start: nat, digits: nat, blanks: nat)

  /** The first position at or after `from` where the greedy reading succeeds. */
  function FindTempFrom(s: string, from: nat): (r: Option<TempHit>)
    requires from <= |s|
    ensures r.Some? ==> from <= r.value.start && TempSplit(s, r.value.start, r.value.digits, r.value.blanks)
    decreases |s| - from
  {
    if from == |s| then None
    else match TempGreedy(s, from)
      case Some((d, w)) => Some(TempHit(from, d, w))
      case None => FindTempFrom(s, from + 1)
  }

  /** Where the greedy reading fails, the pattern cannot match at all. */
  lemma NoTempAt(s: string, i: nat)
    requires i <= |s| && TempGreedy(s, i).None?
    ensures forall d, w :: !TempSplit(s, i, d, w)
  {
    forall d, w | TempSplit(s, i, d, w) ensures false {
      TempSplitIsGreedy(s, i, d, w);
    }
  }

  /** The search finds the leftmost match: none starts before the hit, and none at all when it fails. */
  lemma {:induction false} FindTempFromIsLeftmost(s: string, from: nat)
    requires from <= |s|
    ensures FindTempFrom(s, from).Some? ==>
              forall i, d, w :: from <= i < FindTempFrom(s, from).value.start ==> !TempSplit(s, i, d, w)
    ensures FindTempFrom(s, from).None? ==> forall i, d, w :: from <= i ==> !TempSplit(s, i, d, w)
    decreases |s| - from
  {
    if from == |s| {
      forall i, d, w | from <= i ensures !TempSplit(s, i, d, w) {
      }
    } else if TempGreedy(s, from).Some? {
      assert FindTempFrom(s, from).Some?;
    } else {
      NoTempAt(s, from);
      FindTempFromIsLeftmost(s, from + 1);
      assert FindTempFrom(s, from) == FindTempFrom(s, from + 1);
      forall i, d, w | from <= i && TempSplit(s, i, d, w) ensures from + 1 <= i {
      }
    }
  }

  // ---- /en\s+([a-záéíóúñ\s]+)/i ----

  /** A character of the city class `[a-záéíóúñ\s]` under the `i` flag. */
  predicate IsCityChar(c: char) {
    'a' <= c <= 'z' || 'A' <= c <= 'Z' || c in "áéíóúñÁÉÍÓÚÑ" || IsSpace(c)
  }

  /** The city pattern matches at `j` with `w` blanks after `en` and `l` group characters. */
  predicate CitySplit(s: string, j: nat, w: nat, l: nat) {
    1 <= w && 1 <= l && j + 2 + w + l <= |s| && WordAt(s, j, "en")
    && AllIn(s, j + 2, j + 2 + w, IsSpace) && AllIn(s, j + 2 + w, j + 2 + w + l, IsCityChar)
  }

  /** The match backtracking reaches first: `\s+` as long as possible, then the group as long as possible. */
  ghost predicate BacktrackFirst(s: string, j: nat, w: nat, l: nat) {
    CitySplit(s, j, w, l) && forall w': nat, l': nat :: CitySplit(s, j, w', l') ==> w' < w || (w' == w && l' <= l)
  }

  /** The greedy reading at `j`. When no class character follows the blanks, `\s+`
      gives one blank back and the group is that single blank. */
  function CityGreedy(s: string, j: nat): Option<(nat, nat)>
    requires j <= |s|
  {
    if !WordAt(s, j, "en") then None
    else
      var w := Run(s, j + 2, IsSpace);
      var l := Run(s, j + 2 + w, IsCityChar);
      if 1 <= w && 1 <= l then Some((w, l))
      else if 2 <= w then Some((w - 1, 1))
      else None
  }

  /** The greedy reading is exactly the match backtracking finds first, and it fails only
      where the pattern cannot match at all. */
  lemma CityGreedyIsBacktrackFirst(s: string, j: nat)
    requires j <= |s|
    ensures CityGreedy(s, j).Some? ==> BacktrackFirst(s, j, CityGreedy(s, j).value.0, CityGreedy(s, j).value.1)
    ensures CityGreedy(s, j).None? ==> forall w, l :: !CitySplit(s, j, w, l)
  {
    if WordAt(s, j, "en") {
      var ww := Run(s, j + 2, IsSpace);
      var ll := Run(s, j + 2 + ww, IsCityChar);
      forall w', l' | CitySplit(s, j, w', l')
        ensures w' <= ww
        ensures w' == ww ==> l' <= ll && 1 <= ll
        ensures w' == ww - 1 && ll == 0 ==> l' <= 1
      {
        RunCovers(s, j + 2, IsSpace, w');
        if w' == ww {
          RunCovers(s, j + 2 + ww, IsCityChar, l');
        }
      }
      if 1 <= ww && 1 <= ll {
        assert CitySplit(s, j, ww, ll);
      } else if 2 <= ww {
        assert IsCityChar(s[j + 1 + ww]);
        assert CitySplit(s, j, ww - 1, 1);
      }
    }
  }

  datatype CityHit = CityHit(start: nat, blanks: nat, group: nat)

  /** The first position at or after `from` where the greedy reading succeeds, with its
      backtracking-first split. */
  function FindCityFrom(s: string, from: nat): (r: Option<CityHit>)
    requires from <= |s|
    ensures r.Some? ==> from <= r.value.start && BacktrackFirst(s, r.value.start, r.value.blanks, r.value.group)
    decreases |s| - from
  {
    if from == |s| then None
    else match CityGreedy(s, from)
      case Some((w, l)) =>
        CityGreedyIsBacktrackFirst(s, from);
        Some(CityHit(from, w, l))
      case None => FindCityFrom(s, from + 1)
  }

  /** The search finds the leftmost match: none starts before the hit, and none at all when it fails. */
  lemma {:induction false} FindCityFromIsLeftmost(s: string, from: nat)
    requires from <= |s|
    ensures FindCityFrom(s, from).Some? ==>
              forall j, w, l :: from <= j < FindCityFrom(s, from).value.start ==> !CitySplit(s, j, w, l)
    ensures FindCityFrom(s, from).None? ==> forall j, w, l :: from <= j ==> !CitySplit(s, j, w, l)
    decreases |s| - from
  {
    if from == |s| {
      forall j, w, l | from <= j ensures !CitySplit(s, j, w, l) {
      }
    } else if CityGreedy(s, from).Some? {
      assert FindCityFrom(s, from).Some?;
    } else {
      CityGreedyIsBacktrackFirst(s, from);
      FindCityFromIsLeftmost(s, from + 1);
      assert FindCityFrom(s, from) == FindCityFrom(s, from + 1);
      forall j, w, l | from <= j && CitySplit(s, j, w, l) ensures from + 1 <= j {
      }
    }
  }

  // ---- the parser ----

  /** The first case-insensitive occurrence of a lower-case word at or after `from`. */
  function FindWordFrom(s: string, word: string, from: nat): (r: Option<nat>)
    requires from <= |s|
    ensures r.Some? ==> from <= r.value && WordAt(s, r.value, word)
    ensures r.Some? ==> forall i :: from <= i < r.value ==> !WordAt(s, i, word)
    ensures r.None? ==> forall i :: from <= i <= |s| ==> !WordAt(s, i, word)
    decreases |s| - from
  {
    if WordAt(s, from, word) then Some(from)
    else if from == |s| then None
    else FindWordFrom(s, word, from + 1)
  }

  /** `s.replace(/word/i, '')`: the first case-insensitive occurrence of `word` is cut out. */
  function RemoveWordCI(s: string, word: string): (r: string)
    ensures |r| == if (exists i :: 0 <= i <= |s| && WordAt(s, i, word)) then |s| - |word| else |s|
    ensures (forall i :: 0 <= i <= |s| ==> !WordAt(s, i, word)) ==> r == s
    ensures forall i: nat :: WordAt(s, i, word) && (forall k: nat :: k < i ==> !WordAt(s, k, word)) ==>
              r == s[..i] + s[i + |word|..]
  {
    match FindWordFrom(s, word, 0)
    case Some(i) => s[..i] + s[i + |word|..]
    case None => s
  }

  /** `d.charAt(0).toUpperCase() + d.slice(1)`. */
  function Capitalize(s: string): (r: string)
    ensures |r| == |s|
    ensures r != [] ==> r[0] == UpperChar(s[0]) && r[1..] == s[1..]
  {
    if s == [] then [] else [UpperChar(s[0])] + s[1..]
  }

  /** The `temperatura` field: the digits of the leftmost match, read by `parseInt(_, 10)`. */
  function Temperature(s: string): (r: Option<int>)
    ensures r.Some? ==> 0 <= r.value
  {
    match FindTempFrom(s, 0)
    case Some(h) => Some(ParseDigits(s[h.start .. h.start + h.digits]) as int)
    case None => None
  }

  /** The text of the leftmost temperature match, or `''` when there is none. */
  function TempText(s: string): string {
    match FindTempFrom(s, 0)
    case Some(h) => s[h.start .. h.start + h.digits + h.blanks + 6]
    case None => ""
  }

  /** The capture group of the leftmost city match. */
  function CityGroup(s: string): (r: Option<string>)
    ensures r.Some? ==> forall k :: 0 <= k < |r.value| ==> IsCityChar(r.value[k])
  {
    match FindCityFrom(s, 0)
    case Some(h) =>
      var g := h.start + 2 + h.blanks;
      assert AllIn(s, g, g + h.group, IsCityChar);
      Some(s[g .. g + h.group])
    case None => None
  }

  /** Trimming keeps only characters of the trimmed text. */
  lemma StripKeepsClass(t: string)
    requires forall k :: 0 <= k < |t| ==> IsCityChar(t[k])
    ensures forall k :: 0 <= k < |Strip(t)| ==> IsCityChar(Strip(t)[k])
  {
    var a := TrimStart(t);
    forall k | 0 <= k < |a| ensures IsCityChar(a[k]) {
      assert a[k] == t[|t| - |a| + k];
    }
    var b := TrimEnd(a);
    forall k | 0 <= k < |b| ensures IsCityChar(b[k]) {
      assert b[k] == a[k];
    }
  }

  /** The `ciudad` field: the group of the leftmost city match, trimmed. */
  function City(s: string): (r: Option<string>)
    ensures r.Some? <==> CityGroup(s).Some?
    ensures r.Some? ==> Strip(r.value) == r.value
    ensures r.Some? ==> forall k :: 0 <= k < |r.value| ==> IsCityChar(r.value[k])
  {
    match CityGroup(s)
    case Some(group) =>
      StripKeepsClass(group);
      StripIdempotent(group);
      Some(Strip(group))
    case None => None
  }

  /** The text of the leftmost city match, or `''` when there is none. */
  function CityText(s: string): string {
    match FindCityFrom(s, 0)
    case Some(h) => s[h.start .. h.start + 2 + h.blanks + h.group]
    case None => ""
  }

  /** The `descripcion` field: what is left once the two matched texts and `Clima:` are
      removed, trimmed, with its first letter capitalised. */
  function Description(s: string): (r: string)
    ensures |r| <= |s|
    ensures r == [] || (!IsLowerLetter(r[0]) && !IsSpace(r[0]) && !IsSpace(r[|r| - 1]))
  {
    var t := Strip(Residue(s));
    CapitalizedTrimmed(t);
    Capitalize(t)
  }

  /** The text once both matched texts and `Clima:` are removed. */
  function Residue(s: string): (r: string)
    ensures |r| <= |s|
  {
    var once := RemoveFirst(s, TempText(s));
    var twice := RemoveFirst(once, CityText(s));
    RemoveWordCI(twice, "clima:")
  }

  /** Without a temperature, a city or `Clima:` in the text, the description is the whole
      text trimmed and capitalised. */
  lemma DescriptionWithoutMatches(s: string)
    requires forall i, d, w :: !TempSplit(s, i, d, w)
    requires forall j, w, l :: !CitySplit(s, j, w, l)
    requires forall i :: 0 <= i <= |s| ==> !WordAt(s, i, "clima:")
    ensures Description(s) == Capitalize(Strip(s))
  {
    FindTempFromIsLeftmost(s, 0);
    FindCityFromIsLeftmost(s, 0);
    assert TempText(s) == "" && CityText(s) == "";
    assert OccursAt(s, "", 0);
    assert s[..0] + s[0..] == s;
    assert Residue(s) == s;
  }

  /** The removed temperature text is the leftmost match, cut out where it was found:
      an earlier copy of the same text would itself be an earlier match. */
  lemma TempTextIsLeftmostMatch(s: string, i: nat, d: nat, w: nat)
    requires TempSplit(s, i, d, w)
    requires forall i': nat, d': nat, w': nat :: i' < i ==> !TempSplit(s, i', d', w')
    ensures TempText(s) == s[i .. i + d + w + 6]
    ensures RemoveFirst(s, TempText(s)) == s[..i] + s[i + d + w + 6..]
  {
    LeftmostTempHit(s, i, d, w);
    TempTextOfHit(s, TempHit(i, d, w));
    var t := s[i .. i + d + w + 6];
    NoEarlierCopy(s, t, i, d, w);
    RemoveFirstAt(s, t, i);
  }

  /** The text removed for a temperature hit is the matched span. */
  lemma TempTextOfHit(s: string, h: TempHit)
    requires FindTempFrom(s, 0) == Some(h)
    ensures TempText(s) == s[h.start .. h.start + h.digits + h.blanks + 6]
  {
  }

  /** No copy of the leftmost temperature match starts before it. */
  lemma NoEarlierCopy(s: string, t: string, i: nat, d: nat, w: nat)
    requires TempSplit(s, i, d, w) && t == s[i .. i + d + w + 6]
    requires forall i': nat, d': nat, w': nat :: i' < i ==> !TempSplit(s, i', d', w')
    ensures forall k :: 0 <= k < i ==> !OccursAt(s, t, k)
  {
    forall k | 0 <= k < i ensures !OccursAt(s, t, k) {
      if OccursAt(s, t, k) {
        CopyIsTempSplit(s, i, d, w, k);
      }
    }
  }

  /** A copy of a temperature match is a match too. */
  lemma CopyIsTempSplit(s: string, i: nat, d: nat, w: nat, k: nat)
    requires TempSplit(s, i, d, w)
    requires OccursAt(s, s[i .. i + d + w + 6], k)
    ensures TempSplit(s, k, d, w)
  {
    var n := d + w + 6;
    forall m | k <= m < k + d ensures IsDigit(s[m]) {
      assert s[m] == s[k .. k + n][m - k] == s[i .. i + n][m - k];
    }
    forall m | k + d <= m < k + d + w ensures IsSpace(s[m]) {
      assert s[m] == s[k .. k + n][m - k] == s[i .. i + n][m - k];
    }
    forall m | 0 <= m < 6 ensures LowerChar(s[k + d + w + m]) == "grados"[m] {
      assert s[k + d + w + m] == s[k .. k + n][d + w + m] == s[i .. i + n][d + w + m];
    }
  }

  /** The removed city text is the leftmost match with its first backtracking reading. */
  lemma CityTextIsLeftmostMatch(s: string, j: nat, w: nat, l: nat)
    requires BacktrackFirst(s, j, w, l)
    requires forall j': nat, w': nat, l': nat :: j' < j ==> !CitySplit(s, j', w', l')
    ensures CityText(s) == s[j .. j + 2 + w + l]
  {
    var r := FindCityFrom(s, 0);
    FindCityFromIsLeftmost(s, 0);
    assert CitySplit(s, j, w, l);
    assert r.Some?;
    var h := r.value;
    assert h.start == j;
    BacktrackFirstIsUnique(s, j, w, l, h.blanks, h.group);
  }

  /** Capitalising a trimmed text leaves it trimmed and removes a leading lower-case letter. */
  lemma CapitalizedTrimmed(t: string)
    requires t == [] || (!IsSpace(t[0]) && !IsSpace(t[|t| - 1]))
    ensures var r := Capitalize(t);
            r == [] || (!IsLowerLetter(r[0]) && !IsSpace(r[0]) && !IsSpace(r[|r| - 1]))
  {
    var r := Capitalize(t);
    if |t| > 1 {
      assert r[|r| - 1] == r[1..][|r| - 2] == t[1..][|t| - 2];
    }
  }

  /** The temperature is read exactly when digits followed by `grados` occur somewhere,
      and the city exactly when `en`, blanks and a class character do. */
  lemma FieldsIffMatch(s: string)
    ensures Temperature(s).Some? <==> exists i, d, w :: TempSplit(s, i, d, w)
    ensures City(s).Some? <==> exists j, w, l :: CitySplit(s, j, w, l)
  {
    FindTempFromIsLeftmost(s, 0);
    FindCityFromIsLeftmost(s, 0);
  }

  /** The fields `parseWeatherString` sets; `None` is a field left undefined. */
  datatype WeatherData = WeatherData(temperatura: Option<int>, ciudad: Option<string>, descripcion: Option<string>)

  /** `parseWeatherString(weatherString)`: nothing for a non-string; for a string the
      description is always set, the temperature and the city only when their pattern matches. */
  function ParseWeatherString(v: Json): (r: WeatherData)
    ensures !v.JStr? ==> r == WeatherData(None, None, None)
    ensures v.JStr? ==> r.descripcion.Some?
    ensures v.JStr? ==> (r.temperatura.Some? <==> exists i, d, w :: TempSplit(v.s, i, d, w))
    ensures v.JStr? ==> (r.ciudad.Some? <==> exists j, w, l :: CitySplit(v.s, j, w, l))
    ensures r.descripcion.Some? ==>
              (|r.descripcion.value| <= |v.s|
               && (r.descripcion.value == [] || !IsLowerLetter(r.descripcion.value[0])))
  {
    if !v.JStr? then WeatherData(None, None, None)
    else
      FieldsIffMatch(v.s);
      WeatherData(Temperature(v.s), City(v.s), Some(Description(v.s)))
  }

  /** The temperature read is the digit run of the leftmost place where digits are
      followed by `grados`. */
  lemma TemperatureIsLeftmostDigits(s: string, i: nat, d: nat, w: nat)
    requires TempSplit(s, i, d, w)
    requires forall i': nat, d': nat, w': nat :: i' < i ==> !TempSplit(s, i', d', w')
    ensures Temperature(s) == Some(ParseDigits(s[i .. i + d]) as int)
  {
    LeftmostTempHit(s, i, d, w);
    TemperatureOfHit(s, TempHit(i, d, w));
  }

  lemma TemperatureOfHit(s: string, h: TempHit)
    requires FindTempFrom(s, 0) == Some(h)
    ensures Temperature(s) == Some(ParseDigits(s[h.start .. h.start + h.digits]) as int)
  {
  }

  /** The search stops at the leftmost match, with that match's split. */
  lemma LeftmostTempHit(s: string, i: nat, d: nat, w: nat)
    requires TempSplit(s, i, d, w)
    requires forall i': nat, d': nat, w': nat :: i' < i ==> !TempSplit(s, i', d', w')
    ensures FindTempFrom(s, 0) == Some(TempHit(i, d, w))
  {
    var r := FindTempFrom(s, 0);
    FindTempFromIsLeftmost(s, 0);
    assert r.Some?;
    var h := r.value;
    assert h.start == i;
    TempSplitIsGreedy(s, i, d, w);
    TempSplitIsGreedy(s, i, h.digits, h.blanks);
  }

  /** Backtracking's first split is unique. */
  lemma BacktrackFirstIsUnique(s: string, j: nat, w: nat, l: nat, w2: nat, l2: nat)
    requires BacktrackFirst(s, j, w, l) && BacktrackFirst(s, j, w2, l2)
    ensures w == w2 && l == l2
  {
    assert CitySplit(s, j, w2, l2) && CitySplit(s, j, w, l);
  }

  /** The city read is the trimmed group of the leftmost match, split the way
      backtracking splits it. */
  lemma CityIsLeftmostGroup(s: string, j: nat, w: nat, l: nat)
    requires BacktrackFirst(s, j, w, l)
    requires forall j': nat, w': nat, l': nat :: j' < j ==> !CitySplit(s, j', w', l')
    ensures City(s) == Some(Strip(s[j + 2 + w .. j + 2 + w + l]))
  {
    var r := FindCityFrom(s, 0);
    FindCityFromIsLeftmost(s, 0);
    assert CitySplit(s, j, w, l);
    assert r.Some?;
    var h := r.value;
    assert h.start == j;
    BacktrackFirstIsUnique(s, j, w, l, h.blanks, h.group);
    assert CityGroup(s) == Some(s[j + 2 + w .. j + 2 + w + l]);
  }

  const Sun := "\U{2600}\U{FE0F}"
  const Cloud := "\U{2601}\U{FE0F}"
  const Rain := "\U{1F327}\U{FE0F}"
  const Storm := "\U{26C8}\U{FE0F}"
  const Snow := "\U{2744}\U{FE0F}"
  const Globe := "\U{1F30D}"

  /** The keyword table, in the order the checks run. */
  const WeatherRules: seq<(seq<string>, string)> :=
    [(["sol", "despejado"], Sun), (["nube", "nublado"], Cloud), (["lluvia"], Rain),
     (["tormenta"], Storm), (["nieve"], Snow)]

  /** The icon of the first rule one of whose keywords occurs in the text. */
  function FirstRule(rules: seq<(seq<string>, string)>, text: string): string {
    if rules == [] then Globe
    else if exists k :: k in rules[0].0 && Contains(text, k) then rules[0].1
    else FirstRule(rules[1..], text)
  }

  /** `getWeatherIcon(description)`: a fixed chain of keyword tests on the lower-cased text. */
  function WeatherIcon(description: string): (r: string)
    ensures r in [Sun, Cloud, Rain, Storm, Snow, Globe]
  {
    KeywordIcon(Lower(description))
  }

  /** The chain of tests of `getWeatherIcon` on an already lower-cased text. */
  function KeywordIcon(d: string): string {
    if Contains(d, "sol") || Contains(d, "despejado") then Sun
    else if Contains(d, "nube") || Contains(d, "nublado") then Cloud
    else if Contains(d, "lluvia") then Rain
    else if Contains(d, "tormenta") then Storm
    else if Contains(d, "nieve") then Snow
    else Globe
  }

  lemma AnyOfOne(a: string, text: string)
    ensures (exists k :: k in [a] && Contains(text, k)) <==> Contains(text, a)
  {
    assert a in [a];
  }

  lemma AnyOfTwo(a: string, b: string, text: string)
    ensures (exists k :: k in [a, b] && Contains(text, k)) <==> Contains(text, a) || Contains(text, b)
  {
    assert a in [a, b] && b in [a, b];
  }

  /** A table is read from its first rule on. */
  lemma FirstRuleCons(rule: (seq<string>, string), rest: seq<(seq<string>, string)>, text: string)
    ensures FirstRule([rule] + rest, text) ==
            if exists k :: k in rule.0 && Contains(text, k) then rule.1 else FirstRule(rest, text)
  {
    assert ([rule] + rest)[1..] == rest;
  }

  /** The chain of tests is the keyword table read in order. */
  lemma KeywordIconFollowsTable(d: string)
    ensures KeywordIcon(d) == FirstRule(WeatherRules, d)
  {
    var t4: seq<(seq<string>, string)> := [];
    var t3 := [(["nieve"], Snow)] + t4;
    var t2 := [(["tormenta"], Storm)] + t3;
    var t1 := [(["lluvia"], Rain)] + t2;
    var t0 := [(["nube", "nublado"], Cloud)] + t1;
    assert WeatherRules == [(["sol", "despejado"], Sun)] + t0;
    AnyOfOne("nieve", d);
    FirstRuleCons((["nieve"], Snow), t4, d);
    AnyOfOne("tormenta", d);
    FirstRuleCons((["tormenta"], Storm), t3, d);
    AnyOfOne("lluvia", d);
    FirstRuleCons((["lluvia"], Rain), t2, d);
    AnyOfTwo("nube", "nublado", d);
    FirstRuleCons((["nube", "nublado"], Cloud), t1, d);
    AnyOfTwo("sol", "despejado", d);
    FirstRuleCons((["sol", "despejado"], Sun), t0, d);
  }

  /** `getWeatherIcon` is the keyword table read in order over the lower-cased text. */
  lemma WeatherIconFollowsTable(description: string)
    ensures WeatherIcon(description) == FirstRule(WeatherRules, Lower(description))
  {
    KeywordIconFollowsTable(Lower(description));
  }

  /** The globe is shown exactly when no keyword occurs, whatever the letter case. */
  lemma GlobeIffNoKeyword(description: string)
    ensures WeatherIcon(description) == Globe <==>
            forall rule, k :: rule in WeatherRules && k in rule.0 ==> !Contains(Lower(description), k)
  {
    WeatherIconFollowsTable(description);
    FirstRuleGlobe(WeatherRules, Lower(description));
  }

  /** A table none of whose rules shows the globe yields the globe exactly when no keyword occurs. */
  lemma {:induction false} FirstRuleGlobe(rules: seq<(seq<string>, string)>, text: string)
    requires forall rule :: rule in rules ==> rule.1 != Globe
    ensures FirstRule(rules, text) == Globe <==>
            forall rule, k :: rule in rules && k in rule.0 ==> !Contains(text, k)
  {
    if rules != [] {
      FirstRuleGlobe(rules[1..], text);
      assert forall rule :: rule in rules <==> rule == rules[0] || rule in rules[1..];
    }
  }
}
