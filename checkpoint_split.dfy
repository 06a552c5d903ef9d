/**
 * The checkpoint splitter (`Unite_passive/split.py`): the stage-1
 * checkpoint text may carry the names of the later checkpoints as
 * separators; it is cut at those names, the pieces are picked by position
 * and whitespace-stripped, and each non-empty piece is written to its own
 * checkpoint file.
 */
module CheckpointSplit {
  import opened Py

  /** The checkpoint file names, which are also the separators. */
  const Stage1File := "donnees_apres_etape_1_FiltreValidation.csv"
  const Stage2File := "donnees_apres_etape_2_FiltreNormalisation.csv"
  const Stage3File := "donnees_apres_etape_3_FiltreTransformation.csv"

  predicate StartsAt(s: string, j: nat, m: string)
  {
    j + |m| <= |s| && s[j..j + |m|] == m
  }

  /**
   * The separators of the pattern `(a|b)`, tried in that order. The
   * separator names are matched as literal text.
   */
  datatype Pattern = Pattern(a: string, b: string)
  {
    ghost predicate Valid() { a != [] && b != [] }
  }

  const Markers := Pattern(Stage2File, Stage3File)

  /** The separator the pattern matches at position `j`, trying the first alternative first. */
  function MarkerAt(s: string, j: nat, p: Pattern): (m: Option<string>)
    ensures m.Some? ==> (m.value == p.a || m.value == p.b) && StartsAt(s, j, m.value)
    ensures m.None? <==> !StartsAt(s, j, p.a) && !StartsAt(s, j, p.b)
    ensures StartsAt(s, j, p.a) ==> m == Some(p.a)
  {
    if StartsAt(s, j, p.a) then Some(p.a)
    else if StartsAt(s, j, p.b) then Some(p.b)
    else None
  }

  predicate IsMarker(m: string, p: Pattern)
  {
    m == p.a || m == p.b
  }

  /** No separator starts anywhere in `t`. */
  predicate NoMarker(t: string, p: Pattern)
  {
    forall l :: 0 <= l < |t| ==> MarkerAt(t, l, p).None?
  }

  /** The leftmost position at or after `j` where a separator starts. */
  function FindMarker(s: string, j: nat, p: Pattern): (k: Option<nat>)
    ensures k.Some? ==> j <= k.value < |s| && MarkerAt(s, k.value, p).Some?
    ensures k.Some? ==> forall l :: j <= l < k.value ==> MarkerAt(s, l, p).None?
    ensures k.None? ==> forall l :: j <= l < |s| ==> MarkerAt(s, l, p).None?
    decreases |s| - j
  {
    if j >= |s| then None
    else if MarkerAt(s, j, p).Some? then Some(j)
    else FindMarker(s, j + 1, p)
  }

  function Join(parts: seq<string>): string
  {
    if parts == [] then [] else parts[0] + Join(parts[1..])
  }

  /** The pieces alternate: text without a separator, a separator, text, and so on. */
  ghost predicate Alternates(parts: seq<string>, p: Pattern)
  {
    && |parts| % 2 == 1
    && (forall k :: 0 <= k < |parts| && k % 2 == 1 ==> IsMarker(parts[k], p))
    && (forall k :: 0 <= k < |parts| && k % 2 == 0 ==> NoMarker(parts[k], p))
  }

  lemma AlternatesCons(x: string, m: string, rest: seq<string>, p: Pattern)
    requires NoMarker(x, p) && IsMarker(m, p) && Alternates(rest, p)
    ensures Alternates([x, m] + rest, p)
  {
    var parts := [x, m] + rest;
    forall k | 2 <= k < |parts|
      ensures parts[k] == rest[k - 2] && (k % 2 == (k - 2) % 2)
    {
    }
  }

  lemma SliceOfSlice(t: string, i: nat, j: nat, l: nat, n: nat)
    requires i <= j <= |t| && l + n <= j - i
    ensures t[i..j][l..l + n] == t[i + l..i + l + n]
  {
    var u, v := t[i..j][l..l + n], t[i + l..i + l + n];
    forall x | 0 <= x < n
      ensures u[x] == v[x]
    {
      assert u[x] == t[i..j][l + x] == t[i + l + x];
    }
  }

  lemma StartsAtInfix(t: string, i: nat, j: nat, l: nat, m: string)
    requires i <= j <= |t|
    ensures StartsAt(t[i..j], l, m) ==> StartsAt(t, i + l, m)
  {
    if StartsAt(t[i..j], l, m) {
      SliceOfSlice(t, i, j, l, |m|);
    }
  }

  /** A separator found in a prefix is also there in the whole text. */
  lemma MarkerInPrefix(s: string, j: nat, l: nat, p: Pattern)
    requires j <= |s| && l < j
    ensures MarkerAt(s[..j], l, p).Some? ==> MarkerAt(s, l, p).Some?
  {
    if StartsAt(s[..j], l, p.a) {
      assert s[..j][l..l + |p.a|] == s[l..l + |p.a|];
    }
    if StartsAt(s[..j], l, p.b) {
      assert s[..j][l..l + |p.b|] == s[l..l + |p.b|];
    }
  }

  /** The text before the leftmost separator holds no separator. */
  lemma PrefixHasNoMarker(s: string, j: nat, p: Pattern)
    requires j <= |s|
    requires forall l :: 0 <= l < j ==> MarkerAt(s, l, p).None?
    ensures NoMarker(s[..j], p)
  {
    forall l | 0 <= l < j
      ensures MarkerAt(s[..j], l, p).None?
    {
      MarkerInPrefix(s, j, l, p);
    }
  }

  /**
   * `re.split(f"({split_1}|{split_2})", data)`: text pieces alternating with
   * the separators themselves, joined back they give the input.
   */
  function ReSplit(s: string, p: Pattern): (parts: seq<string>)
    requires p.Valid()
    ensures Alternates(parts, p)
    ensures Join(parts) == s
    decreases |s|
  {
    match FindMarker(s, 0, p)
    case None => [s]
    case Some(j) =>
      var m := MarkerAt(s, j, p).value;
      var rest := ReSplit(s[j + |m|..], p);
      SplitAtMarker(s, j, m, rest, p);
      [s[..j], m] + rest
  }

  /** Cutting at the leftmost separator and splitting the remainder gives alternating pieces of `s`. */
  lemma SplitAtMarker(s: string, j: nat, m: string, rest: seq<string>, p: Pattern)
    requires StartsAt(s, j, m) && IsMarker(m, p)
    requires forall l :: 0 <= l < j ==> MarkerAt(s, l, p).None?
    requires Alternates(rest, p) && Join(rest) == s[j + |m|..]
    ensures Alternates([s[..j], m] + rest, p)
    ensures Join([s[..j], m] + rest) == s
  {
    PrefixHasNoMarker(s, j, p);
    AlternatesCons(s[..j], m, rest, p);
    var parts := [s[..j], m] + rest;
    assert parts[1..][1..] == rest;
    assert s == s[..j] + (m + s[j + |m|..]);
  }

  /** The three pieces `split.py` keeps, by the number of pieces found. */
  function SelectParts(parts: seq<string>): (p: (string, string, string))
    ensures |parts| == 1 ==> p == (Strip(parts[0]), "", "")
    ensures |parts| == 3 ==> p == (Strip(parts[0]), Strip(parts[2]), "")
    ensures |parts| == 5 ==> p == (Strip(parts[0]), Strip(parts[2]), Strip(parts[4]))
    ensures |parts| != 1 && |parts| != 3 && |parts| != 5 ==> p == ("", "", "")
  {
    if |parts| == 1 then (Strip(parts[0]), "", "")
    else if |parts| == 3 then (Strip(parts[0]), Strip(parts[2]), "")
    else if |parts| == 5 then (Strip(parts[0]), Strip(parts[2]), Strip(parts[4]))
    else ("", "", "")
  }

  lemma FileNamesDistinct()
    ensures Stage1File != Stage2File && Stage1File != Stage3File && Stage2File != Stage3File
  {
    assert Stage1File[20] == '1' && Stage2File[20] == '2' && Stage3File[20] == '3';
  }

  /** Writes `text` to `name` only when it is non-empty. */
  function WriteIfNonEmpty(files: map<string, string>, name: string, text: string): map<string, string>
  {
    if text != "" then files[name := text] else files
  }

  /**
   * The script's effect on the checkpoint store; `None` when the stage-1
   * file cannot be opened, which stops the script before it writes.
   */
  function SplitScript(files: map<string, string>): (r: Option<map<string, string>>)
    ensures r.Some? <==> Stage1File in files
    ensures r.Some? ==> r.value.Keys >= files.Keys
  {
    if Stage1File !in files then None
    else
      var (p1, p2, p3) := SelectParts(ReSplit(files[Stage1File], Markers));
      Some(WriteIfNonEmpty(WriteIfNonEmpty(WriteIfNonEmpty(files, Stage1File, p1), Stage2File, p2), Stage3File, p3))
  }

  /** A whitespace-stripped piece of separator-free text is separator-free. */
  lemma NoMarkerInfix(t: string, i: nat, j: nat, p: Pattern)
    requires NoMarker(t, p) && i <= j <= |t|
    ensures NoMarker(t[i..j], p)
  {
    forall l | 0 <= l < j - i
      ensures MarkerAt(t[i..j], l, p).None?
    {
      StartsAtInfix(t, i, j, l, p.a);
      StartsAtInfix(t, i, j, l, p.b);
      assert MarkerAt(t, i + l, p).None?;
    }
  }

  /** Every kept piece is stripped and holds no separator. */
  lemma KeptPartsClean(data: string, p: Pattern)
    requires p.Valid()
    ensures var (p1, p2, p3) := SelectParts(ReSplit(data, p));
      Stripped(p1) && Stripped(p2) && Stripped(p3)
      && NoMarker(p1, p) && NoMarker(p2, p) && NoMarker(p3, p)
  {
    var parts := ReSplit(data, p);
    forall k | 0 <= k < |parts| && k % 2 == 0
      ensures NoMarker(Strip(parts[k]), p)
    {
      var i, j :| 0 <= i <= j <= |parts[k]| && Strip(parts[k]) == parts[k][i..j];
      NoMarkerInfix(parts[k], i, j, p);
    }
    assert Stripped("") && NoMarker("", p);
  }

  /** Text without a separator is split into one piece: stage 1 keeps it stripped, the others are empty. */
  lemma NoMarkerKeepsWhole(data: string, p: Pattern)
    requires p.Valid() && NoMarker(data, p)
    ensures ReSplit(data, p) == [data]
    ensures SelectParts(ReSplit(data, p)) == (Strip(data), "", "")
  {
  }

  /**
   * Text with exactly one separator: stage 1 keeps the stripped text before
   * it, stage 2 the stripped text after it, stage 3 nothing.
   */
  lemma OneMarkerSplitsAtIt(data: string, p: Pattern, j: nat)
    requires p.Valid() && FindMarker(data, 0, p) == Some(j)
    requires NoMarker(data[j + |MarkerAt(data, j, p).value|..], p)
    ensures var after := data[j + |MarkerAt(data, j, p).value|..];
      SelectParts(ReSplit(data, p)) == (Strip(data[..j]), Strip(after), "")
  {
    var m := MarkerAt(data, j, p).value;
    var after := data[j + |m|..];
    NoMarkerKeepsWhole(after, p);
    ReSplitAt(data, p, j);
    var parts := ReSplit(data, p);
    assert |parts| == 3 && parts[0] == data[..j] && parts[2] == after;
  }

  /** The leftmost separator starts the second piece. */
  lemma ReSplitAt(data: string, p: Pattern, j: nat)
    requires p.Valid() && FindMarker(data, 0, p) == Some(j)
    ensures var m := MarkerAt(data, j, p).value;
      ReSplit(data, p) == [data[..j], m] + ReSplit(data[j + |m|..], p)
  {
  }

  /** A single piece means the text has no separator. */
  lemma OnePieceMeansNoMarker(data: string, p: Pattern)
    requires p.Valid() && |ReSplit(data, p)| == 1
    ensures NoMarker(data, p)
  {
    assert Join(ReSplit(data, p)) == ReSplit(data, p)[0] + Join([]);
  }

  /** `name` holds `text` if that is non-empty, and is as before otherwise. */
  ghost predicate WrittenIfNonEmpty(r: map<string, string>, files: map<string, string>, name: string, text: string)
  {
    if text != "" then name in r && r[name] == text
    else (name in r <==> name in files) && (name in files ==> r[name] == files[name])
  }

  /**
   * Each checkpoint file receives its piece when that piece is non-empty;
   * with one or two separators the pieces go by position, so the text after
   * the first separator goes to stage 2 whichever name it was. No other
   * file changes.
   */
  lemma SplitWrites(files: map<string, string>)
    requires Stage1File in files
    ensures var (p1, p2, p3) := SelectParts(ReSplit(files[Stage1File], Markers));
      var r := SplitScript(files).value;
      && WrittenIfNonEmpty(r, files, Stage1File, p1)
      && WrittenIfNonEmpty(r, files, Stage2File, p2)
      && WrittenIfNonEmpty(r, files, Stage3File, p3)
      && (forall name :: name != Stage1File && name != Stage2File && name != Stage3File ==>
            (name in r <==> name in files) && (name in files ==> r[name] == files[name]))
  {
    FileNamesDistinct();
    var (p1, p2, p3) := SelectParts(ReSplit(files[Stage1File], Markers));
    var w1 := WriteIfNonEmpty(files, Stage1File, p1);
    var w2 := WriteIfNonEmpty(w1, Stage2File, p2);
    WriteIfNonEmptyEffect(files, Stage1File, p1);
    WriteIfNonEmptyEffect(w1, Stage2File, p2);
    WriteIfNonEmptyEffect(w2, Stage3File, p3);
  }

  /** One conditional write: `name` as `WrittenIfNonEmpty` says, every other file unchanged. */
  lemma WriteIfNonEmptyEffect(files: map<string, string>, name: string, text: string)
    ensures WrittenIfNonEmpty(WriteIfNonEmpty(files, name, text), files, name, text)
    ensures var r := WriteIfNonEmpty(files, name, text);
      forall other :: other != name ==> (other in r <==> other in files) && (other in files ==> r[other] == files[other])
  {
  }

  /** Three or more separators select no piece, so the store is left as it was. */
  lemma TooManyPiecesWritesNothing(files: map<string, string>)
    requires Stage1File in files
    requires |ReSplit(files[Stage1File], Markers)| >= 7
    ensures SplitScript(files) == Some(files)
  {
  }
}
