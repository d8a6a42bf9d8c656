/** The word segmenter of the documentation search: a loop over a sliding window of six characters that feeds its
    last three decisions back. The weight tables and the character classes are arbitrary. */
module TinySegmenter {
  import opened Text

  /** What one decision looks at: the previous three decisions, six units of text and their classes. */
  datatype Window = Window(p1: char, p2: char, p3: char, units: seq<string>, classes: seq<char>)

  /** The character classifier and the sum of all table weights, bias included. */
  datatype Tables = Tables(ctype: char -> char, score: Window -> int)

  function Units(s: string): seq<string>
  {
    ["B3", "B2", "B1"] + seq(|s|, i requires 0 <= i < |s| => [s[i]]) + ["E1", "E2", "E3"]
  }

  function Classes(t: Tables, s: string): seq<char>
  {
    ['O', 'O', 'O'] + seq(|s|, i requires 0 <= i < |s| => t.ctype(s[i])) + ['O', 'O', 'O']
  }

  /** The decision fed back for position q: U before the first decision, then B or O. */
  function Mark(t: Tables, s: string, q: int): char
    requires q < |s|
    decreases q, 2
  {
    if q < 1 then 'U' else if Boundary(t, s, q) then 'B' else 'O'
  }

  function WindowAt(t: Tables, s: string, q: nat): Window
    requires 1 <= q < |s|
    decreases q, 0
  {
    Window(Mark(t, s, q - 3), Mark(t, s, q - 2), Mark(t, s, q - 1), Units(s)[q..q + 6], Classes(t, s)[q..q + 6])
  }

  /** Does a new word start at position q? */
  predicate Boundary(t: Tables, s: string, q: nat)
    requires 1 <= q < |s|
    decreases q, 1
  {
    t.score(WindowAt(t, s, q)) > 0
  }

  /** The unit at a position of the text; B3, B2, B1 stand before the text and E1, E2, E3 behind it. */
  function UnitAt(s: string, p: int): string
    requires -3 <= p < |s| + 3
  {
    if 0 <= p < |s| then [s[p]]
    else if p == -3 then "B3" else if p == -2 then "B2" else if p == -1 then "B1"
    else if p == |s| then "E1" else if p == |s| + 1 then "E2" else "E3"
  }

  /** What the decision at q looks at: the decisions at q - 3, q - 2 and q - 1 in this order, and the units from q - 3
      to q + 2 with their classes. */
  lemma WindowLooksAt(t: Tables, s: string, q: nat, k: nat)
    requires 1 <= q < |s| && k < 6
    ensures var w := WindowAt(t, s, q);
            && w.p1 == (if q <= 3 then 'U' else if Boundary(t, s, q - 3) then 'B' else 'O')
            && w.p2 == (if q <= 2 then 'U' else if Boundary(t, s, q - 2) then 'B' else 'O')
            && w.p3 == (if q <= 1 then 'U' else if Boundary(t, s, q - 1) then 'B' else 'O')
            && |w.units| == 6 == |w.classes| && w.units[k] == UnitAt(s, q - 3 + k)
            && w.classes[k] == (if 0 <= q - 3 + k < |s| then t.ctype(s[q - 3 + k]) else 'O')
  {
    hide Boundary, Units, Classes, UnitAt;
    UnitsAt(t, s, q - 3 + k);
    assert WindowAt(t, s, q).units[k] == Units(s)[q + k] && WindowAt(t, s, q).classes[k] == Classes(t, s)[q + k];
  }

  lemma UnitsAt(t: Tables, s: string, p: int)
    requires -3 <= p < |s| + 3
    ensures |Units(s)| == |Classes(t, s)| == |s| + 6 && Units(s)[p + 3] == UnitAt(s, p)
    ensures Classes(t, s)[p + 3] == if 0 <= p < |s| then t.ctype(s[p]) else 'O'
  {
  }

  // ----- segments -----

  /** The finished words and the open word after the first n characters. */
  datatype Partial = Partial(words: seq<string>, word: string)

  function Upto(t: Tables, s: string, n: nat): Partial
    requires 1 <= n <= |s|
  {
    if n == 1 then Partial([], s[..1])
    else
      var before := Upto(t, s, n - 1);
      if Boundary(t, s, n - 1) then Partial(before.words + [before.word], [s[n - 1]])
      else Partial(before.words, before.word + [s[n - 1]])
  }

  function Parts(p: Partial): seq<string>
  {
    p.words + [p.word]
  }

  function Segments(t: Tables, s: string): seq<string>
  {
    if s == "" then [] else Parts(Upto(t, s, |s|))
  }

  method Segment(t: Tables, input: Option<string>) returns (result: seq<string>)
    ensures result == if input.None? then [] else Segments(t, input.value)
  {
    if input.None? || input.value == "" { return []; }
    var s := input.value;
    var units, classes := Units(s), Classes(t, s);
    result := [];
    var word := units[3];
    var p1, p2, p3 := 'U', 'U', 'U';
    var i := 4;
    while i < |units| - 3
      invariant 4 <= i <= |units| - 3
      invariant p1 == Mark(t, s, i - 6) && p2 == Mark(t, s, i - 5) && p3 == Mark(t, s, i - 4)
      invariant Partial(result, word) == Upto(t, s, i - 3)
    {
      assert WindowAt(t, s, i - 3) == Window(p1, p2, p3, units[i - 3..i + 3], classes[i - 3..i + 3]);
      var score := t.score(Window(p1, p2, p3, units[i - 3..i + 3], classes[i - 3..i + 3]));
      var p := 'O';
      if score > 0 {
        result := result + [word];
        word := "";
        p := 'B';
      }
      p1, p2, p3 := p2, p3, p;
      word := word + units[i];
      i := i + 1;
    }
    result := result + [word];
  }

  // ----- partition -----

  function Flatten(parts: seq<string>): string
  {
    if parts == [] then "" else Flatten(parts[..|parts| - 1]) + parts[|parts| - 1]
  }

  lemma FlattenSnoc(parts: seq<string>, last: string)
    ensures Flatten(parts + [last]) == Flatten(parts) + last
  {
    assert (parts + [last])[..|parts|] == parts;
  }

  predicate AllFilled(parts: seq<string>)
  {
    forall j :: 0 <= j < |parts| ==> parts[j] != ""
  }

  lemma ExtendWord(words: seq<string>, word: string, c: string)
    ensures Flatten(words + [word + c]) == Flatten(words + [word]) + c
  {
    FlattenSnoc(words, word);
    FlattenSnoc(words, word + c);
  }

  lemma {:induction false} UptoPartitions(t: Tables, s: string, n: nat)
    requires 1 <= n <= |s|
    ensures Flatten(Parts(Upto(t, s, n))) == s[..n] && AllFilled(Parts(Upto(t, s, n)))
  {
    hide Boundary, Flatten;
    if n == 1 {
      FlattenSnoc([], s[..1]);
      assert [] + [s[..1]] == [s[..1]];
      assert Flatten([]) == "" by { EmptyFlatten(); }
    } else {
      var before, c := Upto(t, s, n - 1), [s[n - 1]];
      UptoPartitions(t, s, n - 1);
      assert s[..n] == s[..n - 1] + c;
      if Boundary(t, s, n - 1) {
        FlattenSnoc(Parts(before), c);
      } else {
        ExtendWord(before.words, before.word, c);
        assert forall j :: 0 <= j < |before.words| ==> Parts(before)[j] == before.words[j];
      }
    }
  }

  lemma EmptyFlatten()
    ensures Flatten([]) == ""
  {
  }

  /** The segments of a non-empty input are non-empty and concatenate to exactly the input. */
  lemma SegmentsPartition(t: Tables, s: string)
    ensures Flatten(Segments(t, s)) == s
    ensures AllFilled(Segments(t, s)) && (s != "" ==> Segments(t, s) != [])
  {
    if s != "" {
      UptoPartitions(t, s, |s|);
      assert s[..|s|] == s;
    }
  }

  // ----- the cuts are the decisions -----

  /** Some word ends, and the next one starts, at position q. */
  ghost predicate IsCut(parts: seq<string>, q: nat)
  {
    exists j :: 0 < j < |parts| && |Flatten(parts[..j])| == q
  }

  lemma CutAppend(parts: seq<string>, last: string, q: nat)
    requires parts != []
    ensures IsCut(parts + [last], q) <==> IsCut(parts, q) || |Flatten(parts)| == q
  {
    var more := parts + [last];
    assert forall j :: 0 < j <= |parts| ==> more[..j] == parts[..j];
    assert parts[..|parts|] == parts;
    if |Flatten(parts)| == q { assert |Flatten(more[..|parts|])| == q; }
    if IsCut(parts, q) {
      var j :| 0 < j < |parts| && |Flatten(parts[..j])| == q;
      assert |Flatten(more[..j])| == q;
    }
  }

  lemma CutExtend(words: seq<string>, a: string, b: string, q: nat)
    ensures IsCut(words + [a], q) <==> IsCut(words + [b], q)
  {
    if words != [] {
      CutAppend(words, a, q);
      CutAppend(words, b, q);
    }
  }

  lemma {:induction false} UptoCuts(t: Tables, s: string, n: nat, q: nat)
    requires 1 <= q < n <= |s|
    ensures IsCut(Parts(Upto(t, s, n)), q) <==> Boundary(t, s, q)
  {
    hide Boundary, IsCut;
    var before := Upto(t, s, n - 1);
    var parts := Parts(before);
    UptoPartitions(t, s, n - 1);
    if q < n - 1 {
      UptoCuts(t, s, n - 1, q);
    } else {
      NoCutAtEnd(parts);
    }
    if Boundary(t, s, n - 1) {
      CutAppend(parts, [s[n - 1]], q);
    } else {
      CutExtend(before.words, before.word, before.word + [s[n - 1]], q);
    }
  }

  lemma {:induction false} ShorterPrefix(parts: seq<string>, j: nat)
    requires j < |parts| && AllFilled(parts)
    ensures |Flatten(parts[..j])| < |Flatten(parts)|
  {
    var prefix, last := parts[..|parts| - 1], parts[|parts| - 1];
    if j < |prefix| {
      assert parts[..j] == prefix[..j];
      ShorterPrefix(prefix, j);
    } else {
      assert parts[..j] == prefix;
    }
  }

  lemma NoCutAtEnd(parts: seq<string>)
    requires parts != [] && AllFilled(parts)
    ensures !IsCut(parts, |Flatten(parts)|)
  {
    forall j | 0 < j < |parts| ensures |Flatten(parts[..j])| != |Flatten(parts)| {
      ShorterPrefix(parts, j);
    }
  }

  /** A word starts at an inner position exactly when the score there is positive. */
  lemma CutsAreDecisions(t: Tables, s: string, q: nat)
    requires 1 <= q < |s|
    ensures IsCut(Segments(t, s), q) <==> t.score(WindowAt(t, s, q)) > 0
  {
    UptoCuts(t, s, |s|, q);
  }

  // ----- prefix stability -----

  lemma {:induction false} WindowsAgree(t: Tables, a: string, b: string, k: nat, q: int)
    requires k <= |a| && k <= |b| && a[..k] == b[..k] && q <= k - 3
    ensures Mark(t, a, q) == Mark(t, b, q)
    ensures 1 <= q ==> Boundary(t, a, q) == Boundary(t, b, q)
    decreases q
  {
    if q >= 1 {
      WindowsAgree(t, a, b, k, q - 1);
      MarksAgree(t, a, b, k, q);
      assert forall j :: 0 <= j < k ==> a[j] == a[..k][j] == b[..k][j] == b[j];
      assert Units(a)[q..q + 6] == Units(b)[q..q + 6];
      assert Classes(t, a)[q..q + 6] == Classes(t, b)[q..q + 6];
      assert WindowAt(t, a, q) == WindowAt(t, b, q);
    }
  }

  lemma {:induction false} MarksAgree(t: Tables, a: string, b: string, k: nat, q: int)
    requires k <= |a| && k <= |b| && a[..k] == b[..k] && q <= k - 3
    ensures Mark(t, a, q - 2) == Mark(t, b, q - 2) && Mark(t, a, q - 3) == Mark(t, b, q - 3)
    decreases q, 0
  {
    if q - 2 >= 1 { WindowsAgree(t, a, b, k, q - 2); }
    if q - 3 >= 1 { WindowsAgree(t, a, b, k, q - 3); }
  }

  /** If two inputs agree on their first k characters, all decisions up to position k-3 agree, although every decision
      feeds back the previous three; and so do the words finished by then. */
  lemma {:induction false} PrefixStability(t: Tables, a: string, b: string, k: nat, n: nat)
    requires k <= |a| && k <= |b| && a[..k] == b[..k]
    requires 1 <= n <= k - 2
    ensures forall q :: 1 <= q < n ==> Boundary(t, a, q) == Boundary(t, b, q)
    ensures Upto(t, a, n) == Upto(t, b, n)
  {
    hide Boundary;
    assert a[n - 1] == a[..k][n - 1] == b[..k][n - 1] == b[n - 1];
    if n > 1 {
      PrefixStability(t, a, b, k, n - 1);
      WindowsAgree(t, a, b, k, n - 1);
    } else {
      assert a[..1] == a[..k][..1] == b[..k][..1] == b[..1];
    }
  }

  /** The bound is tight: the decision at k-2 already looks at the character after the common prefix. */
  lemma LookaheadIsTight()
    ensures var t := Tables(_ => 'O', (w: Window) => if w.units == ["B1", "a", "a", "a", "a", "x"] then 1 else 0);
            var a, b := "aaaax", "aaaay";
            a[..4] == b[..4] && Boundary(t, a, 2) && !Boundary(t, b, 2)
  {
    var t := Tables(_ => 'O', (w: Window) => if w.units == ["B1", "a", "a", "a", "a", "x"] then 1 else 0);
    assert Units("aaaax")[2..8] == ["B1", "a", "a", "a", "a", "x"];
    assert Units("aaaay")[2..8][5] == "y";
    assert WindowAt(t, "aaaax", 2).units == Units("aaaax")[2..8];
    assert WindowAt(t, "aaaay", 2).units == Units("aaaay")[2..8];
  }
}
