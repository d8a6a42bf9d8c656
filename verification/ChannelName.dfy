/** Channel names of lifecycle rooms: the string pipelines of create_channel and the normal form they reach. */
module ChannelName {
  import opened Text

  const MAX_NAME: nat := 100
  const FALLBACK := "lifecycle-room"

  predicate Allowed(c: char)
  {
    'a' <= c <= 'z' || 'A' <= c <= 'Z' || '0' <= c <= '9' || c == '_' || c == '-'
  }

  /** replaceAll("[^a-zA-Z0-9_-]", "-") */
  function Sanitize(s: string): (t: string)
    ensures |t| == |s|
  {
    seq(|s|, i requires 0 <= i < |s| => if Allowed(s[i]) then s[i] else '-')
  }

  /** replaceAll("-+", "-") */
  function Collapse(s: string): string
  {
    if |s| < 2 then s
    else if s[0] == '-' && s[1] == '-' then Collapse(s[1..])
    else [s[0]] + Collapse(s[1..])
  }

  function StripLeft(s: string): string
  {
    if s != "" && s[0] == '-' then s[1..] else s
  }

  function StripRight(s: string): string
  {
    if s != "" && s[|s| - 1] == '-' then s[..|s| - 1] else s
  }

  /** replaceAll("(^-|-$)", "") */
  function StripEnds(s: string): string
  {
    StripRight(StripLeft(s))
  }

  function Clean(s: string): string
  {
    AsciiLower(StripEnds(Collapse(Sanitize(s))))
  }

  function Bounded(s: string): string
  {
    Truncate(if IsBlank(s) then FALLBACK else s, MAX_NAME)
  }

  function NormalizeChannelName(name: Option<string>): string
  {
    if !Present(name) then FALLBACK else Bounded(Clean(Trim(name.value)))
  }

  // ----- the normal form -----

  predicate PlainChar(c: char)
  {
    'a' <= c <= 'z' || '0' <= c <= '9' || c == '_' || c == '-'
  }

  predicate NoDoubleHyphen(s: string)
  {
    forall i :: 0 <= i < |s| - 1 ==> !(s[i] == '-' && s[i + 1] == '-')
  }

  predicate EndsInHyphen(s: string)
  {
    s != "" && s[|s| - 1] == '-'
  }

  /** A valid name: 1 to 100 characters from a-z, 0-9, _ and -, no double hyphen, no leading hyphen. */
  predicate NormalForm(s: string)
  {
    && 1 <= |s| <= MAX_NAME && (forall i :: 0 <= i < |s| ==> PlainChar(s[i]))
    && NoDoubleHyphen(s) && s[0] != '-'
  }

  predicate Clear(s: string)
  {
    forall i :: 0 <= i < |s| ==> Allowed(s[i])
  }

  lemma {:induction false} CollapseShape(s: string)
    requires Clear(s)
    ensures Clear(Collapse(s)) && NoDoubleHyphen(Collapse(s))
    ensures (s == "" <==> Collapse(s) == "") && (s != "" ==> Collapse(s)[0] == s[0])
  {
    if |s| >= 2 {
      CollapseShape(s[1..]);
    }
  }

  lemma StripLeftShape(s: string)
    requires Clear(s) && NoDoubleHyphen(s)
    ensures var t := StripLeft(s);
            Clear(t) && NoDoubleHyphen(t) && (t != "" ==> t[0] != '-')
  {
    if s != "" && s[0] == '-' {
      assert forall i :: 0 <= i < |s[1..]| ==> s[1..][i] == s[i + 1];
      assert |s| > 1 ==> !(s[0] == '-' && s[0 + 1] == '-');
    }
  }

  lemma StripRightShape(s: string)
    requires Clear(s) && NoDoubleHyphen(s) && (s != "" ==> s[0] != '-')
    ensures var t := StripRight(s);
            && Clear(t) && NoDoubleHyphen(t) && (t != "" ==> t[0] != '-' && t[|t| - 1] != '-')
            && (s != "" ==> t != "")
  {
    if EndsInHyphen(s) {
      var n := |s| - 1;
      assert forall i :: 0 <= i < n ==> s[..n][i] == s[i];
      assert n >= 1 && s[n - 1] != '-';
    }
  }

  /** A cleaned text is plain, without double hyphens, and without a hyphen at either end. */
  lemma CleanShape(s: string)
    ensures var t := Clean(s);
            && (forall i :: 0 <= i < |t| ==> PlainChar(t[i])) && NoDoubleHyphen(t)
            && (t != "" ==> t[0] != '-' && t[|t| - 1] != '-')
  {
    hide Collapse, StripLeft, StripRight;
    var c := Collapse(Sanitize(s));
    CollapseShape(Sanitize(s));
    StripLeftShape(c);
    StripRightShape(StripLeft(c));
    var t := StripEnds(c);
    assert forall i :: 0 <= i < |t| ==> (AsciiLower(t)[i] == '-' <==> t[i] == '-');
  }

  lemma PlainIsNotWhite(s: string)
    requires s != "" && PlainChar(s[0])
    ensures !IsBlank(s)
  {
    assert !IsWhite(s[0]);
  }

  lemma BoundedShape(t: string)
    requires (forall i :: 0 <= i < |t| ==> PlainChar(t[i])) && NoDoubleHyphen(t) && (t != "" ==> t[0] != '-')
    ensures NormalForm(Bounded(t))
    ensures Bounded(t) == if t == "" then FALLBACK else Truncate(t, MAX_NAME)
  {
    if t != "" {
      PlainIsNotWhite(t);
    }
  }

  /** Every result is a valid name. */
  lemma NormalizedIsNormal(name: Option<string>)
    ensures NormalForm(NormalizeChannelName(name))
  {
    if Present(name) {
      CleanShape(Trim(name.value));
      BoundedShape(Clean(Trim(name.value)));
    }
  }

  // ----- trimming is redundant -----

  lemma {:induction false} CollapseSnocHyphen(s: string)
    ensures Collapse(s + "-") == if EndsInHyphen(s) then Collapse(s) else Collapse(s) + "-"
    ensures s != "" ==> Collapse(s) != "" && Collapse(s)[|Collapse(s)| - 1] == s[|s| - 1]
  {
    if |s| == 0 {
      assert s + "-" == "-";
    } else if |s| == 1 {
      assert (s + "-")[1..] == "-";
      assert Collapse("-") == "-";
    } else {
      assert (s + "-")[1..] == s[1..] + "-";
      CollapseSnocHyphen(s[1..]);
    }
  }

  lemma LeadingHyphenVanishes(s: string)
    requires Clear(s)
    ensures StripEnds(Collapse("-" + s)) == StripEnds(Collapse(s))
  {
    assert ("-" + s)[1..] == s;
    CollapseShape(s);
    if s != "" && s[0] != '-' {
      assert Collapse("-" + s) == "-" + Collapse(s);
      assert StripLeft("-" + Collapse(s)) == Collapse(s);
    }
  }

  lemma StripDropsAppended(c: string)
    requires c != "" && !EndsInHyphen(c)
    ensures StripEnds(c + "-") == StripEnds(c)
  {
    if c[0] == '-' {
      assert (c + "-")[1..] == c[1..] + "-";
      assert c[1..] != "" && c[1..][|c| - 2] == c[|c| - 1];
    }
    assert StripLeft(c + "-") == StripLeft(c) + "-";
  }

  lemma TrailingHyphenVanishes(s: string)
    ensures StripEnds(Collapse(s + "-")) == StripEnds(Collapse(s))
  {
    hide StripEnds;
    CollapseSnocHyphen(s);
    if s == "" {
      assert s + "-" == "-";
      HyphenStripsToNothing();
    } else if !EndsInHyphen(s) {
      StripDropsAppended(Collapse(s));
    }
  }

  lemma HyphenStripsToNothing()
    ensures StripEnds("-") == StripEnds("") == "" && Collapse("-") == "-" && Collapse("") == ""
  {
  }

  lemma SanitizedIsClear(s: string)
    ensures Clear(Sanitize(s))
  {
  }

  lemma {:induction false} TrimLeftIsRedundant(s: string)
    ensures Clean(TrimLeft(s)) == Clean(s)
  {
    if s != "" && s[0] <= ' ' {
      TrimLeftIsRedundant(s[1..]);
      SanitizedIsClear(s[1..]);
      assert Sanitize(s) == "-" + Sanitize(s[1..]);
      LeadingHyphenVanishes(Sanitize(s[1..]));
    }
  }

  lemma {:induction false} TrimRightIsRedundant(s: string)
    ensures Clean(TrimRight(s)) == Clean(s)
  {
    if s != "" && s[|s| - 1] <= ' ' {
      var n := |s| - 1;
      TrimRightIsRedundant(s[..n]);
      assert Sanitize(s) == Sanitize(s[..n]) + "-";
      TrailingHyphenVanishes(Sanitize(s[..n]));
    }
  }

  /** The initial trim changes no result. */
  lemma TrimIsRedundant(name: string)
    ensures NormalizeChannelName(Some(name)) == if IsBlank(name) then FALLBACK else Bounded(Clean(name))
  {
    TrimLeftIsRedundant(name);
    TrimRightIsRedundant(TrimLeft(name));
  }

  // ----- repeated normalization -----

  lemma {:induction false} CollapseKeeps(s: string)
    requires NoDoubleHyphen(s)
    ensures Collapse(s) == s
  {
    if |s| >= 2 {
      forall i | 0 <= i < |s[1..]| - 1 ensures !(s[1..][i] == '-' && s[1..][i + 1] == '-') {
        assert s[1..][i] == s[i + 1] && s[1..][i + 1] == s[i + 2];
      }
      CollapseKeeps(s[1..]);
      assert !(s[0] == '-' && s[1] == '-');
    }
  }

  lemma SanitizeKeeps(s: string)
    requires Clear(s)
    ensures Sanitize(s) == s
  {
  }

  lemma LowerKeeps(s: string)
    requires forall i :: 0 <= i < |s| ==> PlainChar(s[i])
    ensures AsciiLower(s) == s
  {
  }

  lemma CleanNormal(s: string)
    requires NormalForm(s)
    ensures Clean(s) == StripRight(s) && !IsBlank(s)
  {
    hide IsBlank, Collapse, StripRight, AsciiLower, Sanitize;
    PlainIsNotWhite(s);
    SanitizeKeeps(s);
    CollapseKeeps(s);
    assert StripEnds(s) == StripRight(s);
    assert forall i :: 0 <= i < |StripRight(s)| ==> PlainChar(StripRight(s)[i]) by { StripRightIsPlain(s); }
    LowerKeeps(StripRight(s));
  }

  lemma StripRightIsPlain(s: string)
    requires forall i :: 0 <= i < |s| ==> PlainChar(s[i])
    ensures forall i :: 0 <= i < |StripRight(s)| ==> PlainChar(StripRight(s)[i])
  {
  }

  /** A valid name is changed only by losing a final hyphen. */
  lemma NormalizeNormal(s: string)
    requires NormalForm(s)
    ensures NormalizeChannelName(Some(s)) == StripRight(s)
    ensures NormalForm(StripRight(s)) && !EndsInHyphen(StripRight(s))
  {
    hide Clean, IsBlank, NormalizeChannelName;
    TrimIsRedundant(s);
    CleanNormal(s);
    CleanShape(s);
    StripRightShape(s);
    BoundedShape(StripRight(s));
  }

  /** Normalizing three times is normalizing twice; twice is once exactly when the first result does not end in a
      hyphen. */
  lemma NormalizeAgain(name: Option<string>)
    ensures var once := NormalizeChannelName(name);
            var twice := NormalizeChannelName(Some(once));
            && NormalizeChannelName(Some(twice)) == twice
            && (twice == once <==> !EndsInHyphen(once))
  {
    var once := NormalizeChannelName(name);
    NormalizedIsNormal(name);
    NormalizeNormal(once);
    NormalizeNormal(StripRight(once));
  }

  /** A result ends in a hyphen exactly when truncation cuts right behind one. */
  lemma HyphenComesFromTruncation(name: string)
    requires !IsBlank(name)
    ensures EndsInHyphen(NormalizeChannelName(Some(name)))
       <==> |Clean(name)| > MAX_NAME && Clean(name)[MAX_NAME - 1] == '-'
  {
    TrimIsRedundant(name);
    CleanShape(name);
    BoundedShape(Clean(name));
  }

  /** Such names exist. */
  lemma TruncationExposesHyphen()
    ensures var name := seq(99, _ => 'a') + "-b";
            EndsInHyphen(NormalizeChannelName(Some(name)))
  {
    var name := seq(99, _ => 'a') + "-b";
    assert name[0] == 'a' && !IsWhite(name[0]);
    assert Sanitize(name) == name;
    CollapseKeeps(name);
    assert AsciiLower(name) == name;
    HyphenComesFromTruncation(name);
  }

  // ----- names built from the session -----

  function IndexOf(s: string, c: char): (i: nat)
    ensures i <= |s|
  {
    if s == "" || s[0] == c then 0 else 1 + IndexOf(s[1..], c)
  }

  /** The text after the last occurrence of c, or all of it. */
  function AfterLast(s: string, c: char): string
  {
    if s == "" then "" else if s[|s| - 1] == c then "" else AfterLast(s[..|s| - 1], c) + [s[|s| - 1]]
  }

  const GITHUB := "https://github.com/"

  predicate RepoChar(c: char)
  {
    'A' <= c <= 'Z' || 'a' <= c <= 'z' || '0' <= c <= '9' || c == '_' || c == '.' || c == '-'
  }

  /** owner/repository */
  predicate RepoPath(t: string)
  {
    exists i :: 0 < i < |t| - 1 && t[i] == '/' && forall j :: 0 <= j < |t| && j != i ==> RepoChar(t[j])
  }

  /** The repository's own name, without its owner. */
  function RepoSegment(project: Option<string>): string
  {
    if !Present(project) then "repo"
    else
      var t := Trim(project.value);
      var path := if GITHUB <= t then t[|GITHUB|..][..IndexOf(t[|GITHUB|..], '?')] else if RepoPath(t) then t else "";
      var segment := AfterLast(path, '/');
      if !IsBlank(path) && !IsBlank(segment) then Clean(segment) else Clean(t)
  }

  predicate SlugChar(c: char)
  {
    'a' <= c <= 'z' || '0' <= c <= '9'
  }

  /** replaceAll("[^a-z0-9]+", "-") */
  function Slugged(s: string): string
  {
    Collapse(seq(|s|, i requires 0 <= i < |s| => if SlugChar(s[i]) then s[i] else '-'))
  }

  /** `lower` is the request's Unicode lower-casing. */
  function Slug(codeChange: Option<string>, lower: string -> string): string
  {
    if !Present(codeChange) then "change"
    else
      var s := Truncate(StripEnds(Slugged(lower(codeChange.value))), 32);
      if IsBlank(s) then "change" else s
  }

  /** `suffix` is the short hexadecimal clock reading that makes names differ. */
  function BuildChannelName(project: Option<string>, codeChange: Option<string>, lower: string -> string,
                            suffix: string): string
  {
    Bounded(Clean(RepoSegment(project) + "-" + Slug(codeChange, lower) + "-" + suffix))
  }

  /** Names built from the session are valid too, whatever repository and request say. */
  lemma BuiltIsNormal(project: Option<string>, codeChange: Option<string>, lower: string -> string, suffix: string)
    ensures NormalForm(BuildChannelName(project, codeChange, lower, suffix))
  {
    var s := RepoSegment(project) + "-" + Slug(codeChange, lower) + "-" + suffix;
    CleanShape(s);
    BoundedShape(Clean(s));
  }

  lemma {:induction false} CollapseAppendPlain(s: string, plain: string)
    requires plain != "" && forall i :: 0 <= i < |plain| ==> plain[i] != '-'
    ensures Collapse(s + plain) == Collapse(s) + plain
  {
    if s == "" {
      assert s + plain == plain;
      CollapseKeeps(plain);
    } else {
      assert (s + plain)[1..] == s[1..] + plain;
      CollapseAppendPlain(s[1..], plain);
      if |s| == 1 {
        assert Collapse(s[1..]) == "";
        assert s + plain == [s[0]] + plain;
      }
    }
  }

  lemma SuffixOfStripped(c: string, suffix: string)
    requires |c| > |suffix| > 0 && c[|c| - |suffix|..] == suffix && suffix[|suffix| - 1] != '-'
    ensures var t := StripEnds(c); |t| >= |suffix| && t[|t| - |suffix|..] == suffix
  {
    var n := |c| - |suffix|;
    assert c[|c| - 1] == c[n..][|suffix| - 1] == suffix[|suffix| - 1];
    if c[0] == '-' {
      var l := c[1..];
      assert StripLeft(c) == l && l[|l| - 1] == c[|c| - 1];
      assert StripEnds(c) == l;
      assert l[|l| - |suffix|..] == c[n..];
    } else {
      assert StripLeft(c) == c && StripEnds(c) == c;
    }
  }

  lemma SuffixOfLowered(t: string, suffix: string)
    requires |t| >= |suffix| && t[|t| - |suffix|..] == suffix && forall i :: 0 <= i < |suffix| ==> SlugChar(suffix[i])
    ensures AsciiLower(t)[|t| - |suffix|..] == suffix
  {
    var n := |t| - |suffix|;
    forall i | 0 <= i < |suffix| ensures AsciiLower(t)[n..][i] == suffix[i] {
      assert t[n + i] == suffix[i];
    }
  }

  lemma SanitizeAppendPlain(s: string, suffix: string)
    requires forall i :: 0 <= i < |suffix| ==> SlugChar(suffix[i])
    ensures Sanitize(s + suffix) == Sanitize(s) + suffix
  {
  }

  /** The suffix survives, and so keeps names apart, as long as nothing is cut off. */
  lemma SuffixSurvives(head: string, suffix: string)
    requires suffix != "" && forall i :: 0 <= i < |suffix| ==> SlugChar(suffix[i])
    ensures var t := Clean(head + "-" + suffix);
            && |suffix| <= |t| && t[|t| - |suffix|..] == suffix
            && Bounded(t) == Truncate(t, MAX_NAME)
  {
    hide Collapse, StripEnds, IsBlank, Sanitize, AsciiLower, Bounded;
    var s := head + "-";
    assert head + "-" + suffix == s + suffix;
    SanitizeAppendPlain(s, suffix);
    CollapseAppendPlain(Sanitize(s), suffix);
    SanitizedIsClear(s);
    CollapseShape(Sanitize(s));
    var c := Collapse(Sanitize(s)) + suffix;
    SuffixOfStripped(c, suffix);
    SuffixOfLowered(StripEnds(c), suffix);
    CleanShape(s + suffix);
    BoundedShape(Clean(s + suffix));
  }

  // ----- what a name says -----

  /** What a name keeps of a text: letters, digits and underscores. */
  predicate WordChar(c: char)
  {
    'a' <= c <= 'z' || 'A' <= c <= 'Z' || '0' <= c <= '9' || c == '_'
  }

  predicate Word(s: string)
  {
    s != "" && forall i :: 0 <= i < |s| ==> WordChar(s[i])
  }

  predicate Gap(s: string)
  {
    s != "" && forall i :: 0 <= i < |s| ==> !WordChar(s[i])
  }

  predicate NoHyphen(s: string)
  {
    forall i :: 0 <= i < |s| ==> s[i] != '-'
  }

  lemma {:induction false} CollapseAfterWord(a: string, rest: string)
    requires NoHyphen(a) && rest != ""
    ensures Collapse(a + rest) == a + Collapse(rest)
  {
    if a == "" {
      assert a + rest == rest;
    } else {
      assert (a + rest)[1..] == a[1..] + rest;
      CollapseAfterWord(a[1..], rest);
      assert [a[0]] + (a[1..] + Collapse(rest)) == a + Collapse(rest);
    }
  }

  lemma {:induction false} CollapseHyphens(n: nat, b: string)
    requires n > 0 && NoHyphen(b)
    ensures Collapse(seq(n, _ => '-') + b) == "-" + b
  {
    var s := seq(n, _ => '-') + b;
    if n > 1 {
      assert s[1..] == seq(n - 1, _ => '-') + b;
      CollapseHyphens(n - 1, b);
    } else {
      assert s[1..] == b;
      CollapseKeeps(b);
    }
  }

  lemma StripKeepsWords(s: string)
    requires s != "" && s[0] != '-' && s[|s| - 1] != '-'
    ensures StripEnds(s) == s
  {
  }

  /** Words stay, in lower case, and whatever stands between two words becomes one hyphen. */
  lemma WordsAreJoined(a: string, gap: string, b: string)
    requires Word(a) && Gap(gap) && Word(b)
    ensures Clean(a) == AsciiLower(a) && Clean(a + gap + b) == AsciiLower(a) + "-" + AsciiLower(b)
  {
    hide Collapse, StripEnds, AsciiLower;
    var hyphens := seq(|gap|, _ => '-');
    assert Sanitize(a) == a;
    CollapseKeeps(a);
    StripKeepsWords(a);
    assert Sanitize(a + gap + b) == a + (hyphens + b);
    CollapseAfterWord(a, hyphens + b);
    CollapseHyphens(|gap|, b);
    assert a + ("-" + b) == a + "-" + b;
    StripKeepsWords(a + "-" + b);
    assert AsciiLower(a + "-" + b) == AsciiLower(a) + "-" + AsciiLower(b) by { LowerJoins(a, b); }
  }

  lemma LowerJoins(a: string, b: string)
    ensures AsciiLower(a + "-" + b) == AsciiLower(a) + "-" + AsciiLower(b)
  {
  }

  /** A text without any word gets the fallback name, and so do null and blank ones. */
  lemma NoWordNoName(gap: string)
    requires Gap(gap)
    ensures NormalizeChannelName(Some(gap)) == "lifecycle-room" == NormalizeChannelName(None)
  {
    hide Collapse, IsBlank;
    TrimIsRedundant(gap);
    assert Sanitize(gap) == seq(|gap|, _ => '-') + "";
    CollapseHyphens(|gap|, "");
    HyphenStripsToNothing();
    assert StripEnds("-" + "") == "";
    BoundedShape(Clean(gap));
  }

  /** A word becomes its lower-case form, cut at 100 characters. */
  lemma WordIsItsName(word: string)
    requires Word(word)
    ensures NormalizeChannelName(Some(word)) == Truncate(AsciiLower(word), 100)
  {
    hide IsBlank, Clean;
    WordIsNotBlank(word);
    TrimIsRedundant(word);
    WordsAreJoined(word, " ", word);
    CleanShape(word);
    BoundedShape(Clean(word));
  }

  lemma WordIsNotBlank(word: string)
    requires Word(word)
    ensures !IsBlank(word)
  {
    assert !IsWhite(word[0]);
  }

  lemma {:induction false} AfterLastIs(before: string, after: string, c: char)
    requires forall i :: 0 <= i < |after| ==> after[i] != c
    ensures AfterLast(before + [c] + after, c) == after
    decreases |after|
  {
    var s := before + [c] + after;
    if after != "" {
      var n := |after| - 1;
      assert s[..|s| - 1] == before + [c] + after[..n];
      AfterLastIs(before, after[..n], c);
    }
  }

  lemma {:induction false} IndexOfIs(before: string, after: string, c: char)
    requires forall i :: 0 <= i < |before| ==> before[i] != c
    ensures IndexOf(before, c) == |before| && IndexOf(before + [c] + after, c) == |before|
  {
    var s := before + [c] + after;
    if before != "" {
      assert s[1..] == before[1..] + [c] + after;
      IndexOfIs(before[1..], after, c);
    }
  }

  /** A path without white space at its ends is not trimmed. */
  lemma {:induction false} TrimKeeps(s: string)
    requires s != "" && s[0] > ' ' && s[|s| - 1] > ' '
    ensures Trim(s) == s
  {
  }

  /** The repository's segment is its own name, from a path or from an address with or without a query. */
  lemma SegmentIsTheRepository(owner: string, repo: string, query: string)
    requires Word(owner) && Word(repo)
    requires query != "" ==> query[|query| - 1] > ' '
    ensures var path := owner + "/" + repo;
            && RepoSegment(Some(path)) == AsciiLower(repo)
            && RepoSegment(Some("https://github.com/" + path)) == AsciiLower(repo)
            && (query != "" ==> RepoSegment(Some("https://github.com/" + path + "?" + query)) == AsciiLower(repo))
  {
    hide AsciiLower, Clean, AfterLast, IndexOf, Trim, IsBlank, RepoPath, Word;
    var path := owner + "/" + repo;
    WordIsNotBlank(repo);
    RepositoryAlone(owner, repo);
    AddressIsRead(path, "");
    AddressIsRead(path, query);
  }

  lemma RepositoryAlone(owner: string, repo: string)
    requires Word(owner) && Word(repo)
    ensures var path := owner + "/" + repo;
            && AfterLast(path, '/') == repo && Clean(repo) == AsciiLower(repo)
            && Trim(path) == path && path[|path| - 1] > ' '
            && RepoPath(path) && !(GITHUB <= path) && !IsBlank(path) && forall i :: 0 <= i < |path| ==> path[i] != '?'
  {
    hide AsciiLower, Clean, AfterLast, Trim, IsBlank, RepoPath;
    var path := owner + "/" + repo;
    WordsAreJoined(repo, " ", repo);
    PathIsRead(owner, repo);
    assert path[0] == owner[0] && path[|path| - 1] == repo[|repo| - 1];
    TrimKeeps(path);
    assert path == owner + ['/'] + repo;
    AfterLastIs(owner, repo, '/');
  }

  lemma PathIsRead(owner: string, repo: string)
    requires Word(owner) && Word(repo)
    ensures var path := owner + "/" + repo;
            RepoPath(path) && !(GITHUB <= path) && !IsBlank(path) && forall i :: 0 <= i < |path| ==> path[i] != '?'
  {
    var path := owner + "/" + repo;
    assert path[|owner|] == '/' && forall j :: 0 <= j < |path| && j != |owner| ==> RepoChar(path[j]);
    assert !IsWhite(path[0]);
    assert GITHUB[5] == ':';
  }

  lemma AddressIsRead(path: string, query: string)
    requires path != "" && path[|path| - 1] > ' ' && forall i :: 0 <= i < |path| ==> path[i] != '?'
    requires query != "" ==> query[|query| - 1] > ' '
    ensures var t := if query == "" then GITHUB + path else GITHUB + path + "?" + query;
            && Present(Some(t)) && Trim(t) == t && GITHUB <= t
            && t[|GITHUB|..][..IndexOf(t[|GITHUB|..], '?')] == path
  {
    hide IsBlank, IndexOf, Trim;
    assert GITHUB[0] == 'h';
    PathBehindPrefix(GITHUB, path, query);
  }

  lemma PathBehindPrefix(prefix: string, path: string, query: string)
    requires prefix != "" && prefix[0] == 'h'
    requires path != "" && path[|path| - 1] > ' ' && forall i :: 0 <= i < |path| ==> path[i] != '?'
    requires query != "" ==> query[|query| - 1] > ' '
    ensures var t := if query == "" then prefix + path else prefix + path + "?" + query;
            && !IsBlank(t) && Trim(t) == t && prefix <= t
            && t[|prefix|..][..IndexOf(t[|prefix|..], '?')] == path
  {
    var t := if query == "" then prefix + path else prefix + path + "?" + query;
    assert t[0] == 'h' && !IsBlank(t) by { assert !IsWhite(t[0]); }
    hide IsBlank, IndexOf, Trim;
    TrimKeeps(t);
    IndexOfIs(path, query, '?');
    if query == "" {
      assert t[|prefix|..] == path;
    } else {
      assert t[|prefix|..] == path + ['?'] + query;
    }
  }

  /** A request of two words becomes both, joined by a hyphen and cut at 32 characters. */
  lemma SlugJoinsWords(request: string, lower: string -> string, a: string, gap: string, b: string)
    requires !IsBlank(request) && lower(request) == a + gap + b && gap != ""
    requires forall i :: 0 <= i < |a| ==> SlugChar(a[i])
    requires forall i :: 0 <= i < |gap| ==> !SlugChar(gap[i])
    requires forall i :: 0 <= i < |b| ==> SlugChar(b[i])
    requires a != "" && b != ""
    ensures Slug(Some(request), lower) == Truncate(a + "-" + b, 32)
  {
    hide Collapse, StripEnds, IsBlank;
    var hyphens := seq(|gap|, _ => '-');
    var s := a + gap + b;
    assert seq(|s|, i requires 0 <= i < |s| => if SlugChar(s[i]) then s[i] else '-') == a + (hyphens + b);
    CollapseAfterWord(a, hyphens + b);
    CollapseHyphens(|gap|, b);
    assert a + ("-" + b) == a + "-" + b;
    StripKeepsWords(a + "-" + b);
    var t := Truncate(a + "-" + b, 32);
    assert t[0] == a[0];
    PlainIsNotWhite(t);
  }

  lemma NoRequestNoSlug(lower: string -> string)
    ensures Slug(None, lower) == "change" == Slug(Some(""), lower)
    ensures RepoSegment(None) == "repo" == RepoSegment(Some(""))
  {
  }

  lemma {:induction false} CollapseShortens(s: string)
    ensures |Collapse(s)| <= |s|
  {
    if |s| >= 2 {
      CollapseShortens(s[1..]);
    }
  }

  /** A built name is repository, request and suffix; the suffix is there in full unless the name has to be cut, which
      it has not when repository and request take at most 98 characters with it. */
  lemma BuiltNameEndsWithSuffix(project: Option<string>, codeChange: Option<string>, lower: string -> string,
                                suffix: string)
    requires suffix != "" && forall i :: 0 <= i < |suffix| ==> SlugChar(suffix[i])
    requires |RepoSegment(project)| + |Slug(codeChange, lower)| + |suffix| <= 98
    ensures var name := BuildChannelName(project, codeChange, lower, suffix);
            |suffix| <= |name| && name[|name| - |suffix|..] == suffix
  {
    hide Collapse, StripEnds, IsBlank, RepoSegment, Slug, Bounded;
    var head := RepoSegment(project) + "-" + Slug(codeChange, lower);
    SuffixSurvives(head, suffix);
    CollapseShortens(Sanitize(head + "-" + suffix));
    StripShortens(Collapse(Sanitize(head + "-" + suffix)));
  }

  lemma StripShortens(s: string)
    ensures |StripEnds(s)| <= |s|
  {
  }

  /** For a plain repository and a plain request the whole name is known. */
  lemma BuiltNameSpelled(owner: string, repo: string, request: string, lower: string -> string, suffix: string)
    requires Word(owner) && Word(repo) && !IsBlank(request)
    requires lower(request) != "" && |lower(request)| <= 32
    requires forall i :: 0 <= i < |lower(request)| ==> SlugChar(lower(request)[i])
    requires suffix != "" && forall i :: 0 <= i < |suffix| ==> SlugChar(suffix[i])
    ensures BuildChannelName(Some(owner + "/" + repo), Some(request), lower, suffix)
         == Truncate(AsciiLower(repo) + "-" + lower(request) + "-" + suffix, 100)
  {
    hide Collapse, StripEnds, IsBlank, RepoSegment, AsciiLower, Bounded, Truncate, Sanitize;
    SegmentIsTheRepository(owner, repo, "");
    PlainSlug(request, lower);
    var name := AsciiLower(repo) + "-" + lower(request) + "-" + suffix;
    LowerWordIsPlain(repo);
    PlainStays(name);
    CleanShape(name);
    BoundedShape(name);
  }

  lemma PlainSlug(request: string, lower: string -> string)
    requires !IsBlank(request) && lower(request) != "" && |lower(request)| <= 32
    requires forall i :: 0 <= i < |lower(request)| ==> SlugChar(lower(request)[i])
    ensures Slug(Some(request), lower) == lower(request)
  {
    hide Collapse, StripEnds, IsBlank;
    var s := lower(request);
    assert seq(|s|, i requires 0 <= i < |s| => if SlugChar(s[i]) then s[i] else '-') == s;
    CollapseKeeps(s);
    StripKeepsWords(s);
    PlainIsNotWhite(s);
  }

  lemma LowerWordIsPlain(word: string)
    requires Word(word)
    ensures var t := AsciiLower(word); t != "" && NoHyphen(t) && forall i :: 0 <= i < |t| ==> PlainChar(t[i])
  {
  }

  lemma PlainStays(s: string)
    requires s != "" && s[0] != '-' && s[|s| - 1] != '-' && NoDoubleHyphen(s)
    requires forall i :: 0 <= i < |s| ==> PlainChar(s[i])
    ensures Clean(s) == s
  {
    hide Collapse, StripEnds, AsciiLower;
    assert Sanitize(s) == s;
    CollapseKeeps(s);
    StripKeepsWords(s);
    LowerKeeps(s);
  }

  /** The characters of repository paths, slugs and names, by their ASCII codes. */
  lemma CharactersAre(c: char)
    ensures var n := c as int;
            var digit, lower, upper := 48 <= n <= 57, 97 <= n <= 122, 65 <= n <= 90;
            && (RepoChar(c) <==> digit || lower || upper || n in {45, 46, 95})
            && (SlugChar(c) <==> digit || lower)
            && (WordChar(c) <==> digit || lower || upper || n == 95)
            && (Allowed(c) <==> digit || lower || upper || n in {45, 95})
  {
  }

  /** A path is exactly two non-empty names of these characters around one slash. */
  lemma PathIsTwoNames(t: string)
    ensures RepoPath(t) <==> exists owner, repo :: t == owner + "/" + repo && PathName(owner) && PathName(repo)
  {
    if RepoPath(t) {
      var i :| 0 < i < |t| - 1 && t[i] == '/' && forall j :: 0 <= j < |t| && j != i ==> RepoChar(t[j]);
      assert t == t[..i] + "/" + t[i + 1..] && PathName(t[..i]) && PathName(t[i + 1..]);
    }
    forall owner, repo | t == owner + "/" + repo && PathName(owner) && PathName(repo) ensures RepoPath(t) {
      assert t[|owner|] == '/' && forall j :: 0 <= j < |t| && j != |owner| ==> RepoChar(t[j]);
    }
  }

  predicate PathName(s: string)
  {
    s != "" && forall i :: 0 <= i < |s| ==> RepoChar(s[i])
  }

  /** A project that is no path and no address, and an address ending in a slash, are cleaned as a whole. */
  lemma OtherProjectsAreCleaned(project: string, path: string)
    requires !IsBlank(project)
    ensures !(GITHUB <= Trim(project)) && !RepoPath(Trim(project)) ==>
      RepoSegment(Some(project)) == Clean(Trim(project))
    ensures Trim(project) == GITHUB + path + "/" && (forall i :: 0 <= i < |path| ==> path[i] != '?') ==>
      RepoSegment(Some(project)) == Clean(Trim(project))
    ensures Trim(project) == GITHUB ==> RepoSegment(Some(project)) == Clean(GITHUB)
  {
    hide Clean, Trim, RepoPath;
    var t := Trim(project);
    if t == GITHUB + path + "/" && forall i :: 0 <= i < |path| ==> path[i] != '?' {
      assert t[|GITHUB|..] == path + "/";
      IndexOfIs(path + "/", "", '?');
      assert path + "/" == path + ['/'] + "";
      AfterLastIs(path, "", '/');
    }
  }

  /** A request without letters and digits has the standard slug. */
  lemma NoWordNoSlug(request: string, lower: string -> string)
    requires forall i :: 0 <= i < |lower(request)| ==> !SlugChar(lower(request)[i])
    ensures Slug(Some(request), lower) == "change"
  {
    hide Collapse;
    var s := lower(request);
    assert seq(|s|, i requires 0 <= i < |s| => if SlugChar(s[i]) then s[i] else '-') == seq(|s|, _ => '-') + "";
    if s != "" {
      CollapseHyphens(|s|, "");
      assert "-" + "" == "-";
    }
    HyphenStripsToNothing();
  }
}
