/**
 * Turning a glob of mockup JSON modules into a keyed, labelled record
 * (dist/sandbox/frontend/mockup-loader.js). The glob result is given as the
 * sequence of `[path, module]` entries in iteration order.
 */
module MockupLoader {
  import opened Common
  import opened Js

  /** `path.split('/').pop()`: everything after the last '/' */
  function LastSegment(path: string): (r: string)
    ensures '/' !in r && EndsWith(path, r)
    ensures |r| < |path| ==> path[|path| - |r| - 1] == '/'
  {
    if |path| == 0 || path[|path| - 1] == '/' then ""
    else LastSegment(path[..|path| - 1]) + [path[|path| - 1]]
  }

  /** The record key of a mockup file: its file name with the first ".json" removed */
  function MockupKey(path: string): string {
    ReplaceFirst(LastSegment(path), ".json", "")
  }

  /** `toUpperCase` on one character, for the ASCII letters */
  function Upper(c: char): char {
    if 'a' <= c <= 'z' then (c as int - 32) as char else c
  }

  /** `s.split(sep)` for a one-character separator */
  function Split(s: string, sep: char): (parts: seq<string>)
    ensures |parts| >= 1
  {
    if |s| == 0 then [""]
    else
      var rest := Split(s[1..], sep);
      if s[0] == sep then [""] + rest else [[s[0]] + rest[0]] + rest[1..]
  }

  /** `w.charAt(0).toUpperCase() + w.slice(1)` */
  function Capitalize(w: string): string {
    if |w| == 0 then "" else [Upper(w[0])] + w[1..]
  }

  function CapitalizeAll(ws: seq<string>): (r: seq<string>)
    ensures |r| == |ws| && forall i :: 0 <= i < |ws| ==> r[i] == Capitalize(ws[i])
  {
    if |ws| == 0 then [] else [Capitalize(ws[0])] + CapitalizeAll(ws[1..])
  }

  /** `parts.join(' ')` */
  function JoinSpace(parts: seq<string>): string
    requires |parts| >= 1
  {
    if |parts| == 1 then parts[0] else parts[0] + " " + JoinSpace(parts[1..])
  }

  /** The label of a key, as the loader builds it: split on '-', capitalise each piece, join with spaces */
  function Label(key: string): string {
    JoinSpace(CapitalizeAll(Split(key, '-')))
  }

  /**
   * A character-by-character reading of the same label: '-' becomes a space,
   * a character that starts a piece is upper-cased, everything else is kept.
   * `atStart` says whether the current character starts a piece.
   */
  function LabelFrom(s: string, atStart: bool): (r: string)
    ensures |r| == |s|
  {
    if |s| == 0 then ""
    else (if s[0] == '-' then " " else if atStart then [Upper(s[0])] else [s[0]]) + LabelFrom(s[1..], s[0] == '-')
  }

  /** Everything of a label after its first piece */
  function LabelTail(parts: seq<string>): string
    requires |parts| >= 1
  {
    if |parts| == 1 then "" else " " + JoinSpace(CapitalizeAll(parts[1..]))
  }

  lemma JoinCapitalized(ps: seq<string>)
    requires |ps| >= 1
    ensures JoinSpace(CapitalizeAll(ps)) == Capitalize(ps[0]) + LabelTail(ps)
  {
    var ys := CapitalizeAll(ps[1..]);
    assert CapitalizeAll(ps) == [Capitalize(ps[0])] + ys;
    JoinCons(Capitalize(ps[0]), ys);
  }

  /** Joining a piece in front of other pieces */
  lemma JoinCons(x: string, ys: seq<string>)
    ensures JoinSpace([x] + ys) == x + (if |ys| == 0 then "" else " " + JoinSpace(ys))
  {
    assert ([x] + ys)[0] == x && ([x] + ys)[1..] == ys;
  }

  /** The step of `LabelFromSplit` for a key starting with '-' */
  lemma LabelFromSplitDash(s: string)
    requires |s| > 0 && s[0] == '-'
    requires LabelFrom(s[1..], true) == Capitalize(Split(s[1..], '-')[0]) + LabelTail(Split(s[1..], '-'))
    ensures LabelFrom(s, false) == Split(s, '-')[0] + LabelTail(Split(s, '-'))
    ensures LabelFrom(s, true) == Capitalize(Split(s, '-')[0]) + LabelTail(Split(s, '-'))
  {
    var t := s[1..];
    var pt := Split(t, '-');
    var ps := Split(s, '-');
    assert ps == [""] + pt;
    assert ps[1..] == pt;
    JoinCapitalized(pt);
    assert LabelTail(ps) == " " + LabelFrom(t, true);
  }

  /** A character other than the separator extends the first piece */
  lemma SplitNonSeparator(s: string)
    requires |s| > 0 && s[0] != '-'
    ensures Split(s, '-')[0] == [s[0]] + Split(s[1..], '-')[0]
    ensures LabelTail(Split(s, '-')) == LabelTail(Split(s[1..], '-'))
  {
    var pt := Split(s[1..], '-');
    var ps := Split(s, '-');
    assert ps[1..] == pt[1..];
  }

  /** The step of `LabelFromSplit` for a key starting with any other character */
  lemma LabelFromSplitOther(s: string)
    requires |s| > 0 && s[0] != '-'
    requires LabelFrom(s[1..], false) == Split(s[1..], '-')[0] + LabelTail(Split(s[1..], '-'))
    ensures LabelFrom(s, false) == Split(s, '-')[0] + LabelTail(Split(s, '-'))
    ensures LabelFrom(s, true) == Capitalize(Split(s, '-')[0]) + LabelTail(Split(s, '-'))
  {
    SplitNonSeparator(s);
    var head := Split(s[1..], '-')[0];
    var tail := LabelTail(Split(s[1..], '-'));
    PrependPiece(s[0], head, tail, LabelFrom(s[1..], false));
  }

  /** Prepending a character to the first piece, plainly and capitalised */
  lemma PrependPiece(c: char, head: string, tail: string, rest: string)
    requires rest == head + tail
    ensures [c] + rest == ([c] + head) + tail
    ensures [Upper(c)] + rest == Capitalize([c] + head) + tail
  {
    assert ([c] + head)[1..] == head;
  }

  lemma {:induction false} LabelFromSplit(s: string)
    ensures LabelFrom(s, false) == Split(s, '-')[0] + LabelTail(Split(s, '-'))
    ensures LabelFrom(s, true) == Capitalize(Split(s, '-')[0]) + LabelTail(Split(s, '-'))
  {
    if |s| > 0 {
      LabelFromSplit(s[1..]);
      if s[0] == '-' {
        LabelFromSplitDash(s);
      } else {
        LabelFromSplitOther(s);
      }
    }
  }

  /** The pipeline of the loader and the character-by-character reading agree on every key */
  lemma LabelIsCharwise(key: string)
    ensures Label(key) == LabelFrom(key, true)
  {
    var ps := Split(key, '-');
    LabelFromSplit(key);
    assert CapitalizeAll(ps)[1..] == CapitalizeAll(ps[1..]);
  }

  lemma {:induction false} LabelFromAt(s: string, atStart: bool, i: nat)
    requires i < |s|
    ensures LabelFrom(s, atStart)[i] ==
      (if s[i] == '-' then ' '
       else if (if i == 0 then atStart else s[i - 1] == '-') then Upper(s[i])
       else s[i])
  {
    if i > 0 {
      LabelFromAt(s[1..], s[0] == '-', i - 1);
    }
  }

  /** A label is as long as its key; dashes become spaces and the first letter of each piece is upper-cased */
  lemma LabelShape(key: string)
    ensures |Label(key)| == |key|
    ensures forall i :: 0 <= i < |key| ==>
      (Label(key)[i] ==
        if key[i] == '-' then ' '
        else if i == 0 || key[i - 1] == '-' then Upper(key[i])
        else key[i])
  {
    LabelIsCharwise(key);
    forall i | 0 <= i < |key| {
      LabelFromAt(key, true, i);
    }
  }

  datatype Mockup = Mockup(labelText: string, data: Value)

  /** `i` is the last entry whose path yields `key` */
  predicate LastWithKey(entries: seq<(string, Value)>, key: string, i: int) {
    0 <= i < |entries| && MockupKey(entries[i].0) == key
    && forall j :: i < j < |entries| ==> MockupKey(entries[j].0) != key
  }

  /** `i` is the last pair carrying key `k` */
  predicate LastPairWithKey<V>(kvs: seq<(string, V)>, k: string, i: int) {
    0 <= i < |kvs| && kvs[i].0 == k && forall j :: i < j < |kvs| ==> kvs[j].0 != k
  }

  /** Assigning `record[key] = value` pair by pair, starting from `{}` */
  function AssignAll<V>(kvs: seq<(string, V)>): map<string, V> {
    if |kvs| == 0 then map[] else AssignAll(kvs[..|kvs| - 1])[kvs[|kvs| - 1].0 := kvs[|kvs| - 1].1]
  }

  /** The record has exactly the assigned keys */
  lemma {:induction false} AssignAllKeys<V>(kvs: seq<(string, V)>)
    ensures AssignAll(kvs).Keys == set i | 0 <= i < |kvs| :: kvs[i].0
  {
    if |kvs| > 0 {
      var init := kvs[..|kvs| - 1];
      AssignAllKeys(init);
      assert forall i :: 0 <= i < |init| ==> init[i] == kvs[i];
      assert (set i | 0 <= i < |kvs| :: kvs[i].0) == (set i | 0 <= i < |init| :: init[i].0) + {kvs[|kvs| - 1].0};
    }
  }

  /** Under each key is the value of its last assignment */
  lemma {:induction false} AssignAllLast<V>(kvs: seq<(string, V)>, i: int)
    requires 0 <= i < |kvs| && LastPairWithKey(kvs, kvs[i].0, i)
    ensures kvs[i].0 in AssignAll(kvs) && AssignAll(kvs)[kvs[i].0] == kvs[i].1
    decreases |kvs|
  {
    if i < |kvs| - 1 {
      var init := kvs[..|kvs| - 1];
      assert init[i] == kvs[i];
      assert LastPairWithKey(init, init[i].0, i);
      AssignAllLast(init, i);
    }
  }

  /** The key and record entry each glob entry contributes; `data` is the module's default export, unchanged */
  function Entries(entries: seq<(string, Value)>): (r: seq<(string, Mockup)>)
    ensures |r| == |entries|
    ensures forall i :: 0 <= i < |entries| ==>
      r[i] == (MockupKey(entries[i].0), Mockup(Label(MockupKey(entries[i].0)), Get(entries[i].1, "default")))
  {
    if |entries| == 0 then []
    else
      var key := MockupKey(entries[0].0);
      [(key, Mockup(Label(key), Get(entries[0].1, "default")))] + Entries(entries[1..])
  }

  /** The record built from the entries has one key per glob entry's derived key */
  lemma ProcessedKeys(entries: seq<(string, Value)>)
    ensures AssignAll(Entries(entries)).Keys == set i | 0 <= i < |entries| :: MockupKey(entries[i].0)
  {
    var kvs := Entries(entries);
    AssignAllKeys(kvs);
    assert (set i | 0 <= i < |kvs| :: kvs[i].0) == set i | 0 <= i < |entries| :: MockupKey(entries[i].0);
  }

  /** The last entry with a given key is the one stored under it */
  lemma ProcessedLast(entries: seq<(string, Value)>, i: int)
    requires 0 <= i < |entries| && LastWithKey(entries, MockupKey(entries[i].0), i)
    ensures MockupKey(entries[i].0) in AssignAll(Entries(entries))
    ensures AssignAll(Entries(entries))[MockupKey(entries[i].0)] == Mockup(Label(MockupKey(entries[i].0)), Get(entries[i].1, "default"))
  {
    var kvs := Entries(entries);
    assert kvs[i].0 == MockupKey(entries[i].0);
    forall j | i < j < |kvs| ensures kvs[j].0 != kvs[i].0 {
      assert kvs[j].0 == MockupKey(entries[j].0);
    }
    AssignAllLast(kvs, i);
  }

  /** `processMockups`: one record entry per derived key, later entries overwriting earlier ones */
  function ProcessMockups(entries: seq<(string, Value)>): (r: map<string, Mockup>)
    ensures r.Keys == set i | 0 <= i < |entries| :: MockupKey(entries[i].0)
    ensures forall i | 0 <= i < |entries| && LastWithKey(entries, MockupKey(entries[i].0), i) ::
      r[MockupKey(entries[i].0)] == Mockup(Label(MockupKey(entries[i].0)), Get(entries[i].1, "default"))
  {
    ProcessedKeys(entries);
    forall i | 0 <= i < |entries| && LastWithKey(entries, MockupKey(entries[i].0), i)
      ensures MockupKey(entries[i].0) in AssignAll(Entries(entries))
      ensures AssignAll(Entries(entries))[MockupKey(entries[i].0)] == Mockup(Label(MockupKey(entries[i].0)), Get(entries[i].1, "default"))
    {
      ProcessedLast(entries, i);
    }
    AssignAll(Entries(entries))
  }

  /** No glob entries, no mockups */
  lemma EmptyGlobGivesEmptyRecord()
    ensures ProcessMockups([]) == map[]
  {
  }

  lemma AssignTwiceKeepsLast<V>(k: string, a: V, b: V)
    ensures AssignAll([(k, a), (k, b)]) == map[k := b]
  {
    var kvs := [(k, a), (k, b)];
    assert kvs[..1] == [(k, a)];
    assert kvs[..1][..0] == [];
    assert AssignAll(kvs[..1]) == map[k := a];
  }

  /** Two files with the same derived key: the later one wins */
  lemma LaterFileWins(p1: string, m1: Value, p2: string, m2: Value)
    requires MockupKey(p1) == MockupKey(p2)
    ensures ProcessMockups([(p1, m1), (p2, m2)]) == map[MockupKey(p2) := Mockup(Label(MockupKey(p2)), Get(m2, "default"))]
  {
    var e := [(p1, m1), (p2, m2)];
    var k := MockupKey(p2);
    var kvs := Entries(e);
    assert kvs == [(k, Mockup(Label(k), Get(m1, "default"))), (k, Mockup(Label(k), Get(m2, "default")))];
    AssignTwiceKeepsLast(k, Mockup(Label(k), Get(m1, "default")), Mockup(Label(k), Get(m2, "default")));
  }

  /** The only pattern `loadMockupsFromPattern` resolves */
  const StandardPattern := "./src/mockups/*.json"

  /** `loadMockupsFromPattern`: the standard glob is processed, every other pattern yields an empty record */
  function LoadMockupsFromPattern(pattern: string, standardGlob: seq<(string, Value)>): (r: map<string, Mockup>)
    ensures pattern != StandardPattern ==> r == map[]
    ensures pattern == StandardPattern ==> r.Keys == set i | 0 <= i < |standardGlob| :: MockupKey(standardGlob[i].0)
    ensures pattern == StandardPattern ==> forall i | 0 <= i < |standardGlob| && LastWithKey(standardGlob, MockupKey(standardGlob[i].0), i) ::
      r[MockupKey(standardGlob[i].0)] == Mockup(Label(MockupKey(standardGlob[i].0)), Get(standardGlob[i].1, "default"))
  {
    if pattern == StandardPattern then ProcessMockups(standardGlob) else map[]
  }

  /** The standard pattern is the glob `loadMockups` processes: both give the same record */
  lemma StandardPatternIsProcessed(standardGlob: seq<(string, Value)>)
    ensures LoadMockupsFromPattern(StandardPattern, standardGlob) == ProcessMockups(standardGlob)
  {
  }
}
