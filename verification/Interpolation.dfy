/** The placeholder loop of DoneStep, PromptForFieldStep and PostChannelMessageAction: keys are replaced one
    after another in the iteration order of a hash map. For brace-free keys and values that order is irrelevant
    and the loop is one simultaneous substitution. */
module Interpolation {
  import opened Text

  /** String.contains. */
  predicate Contains(s: string, pattern: string)
  {
    |pattern| <= |s| && (pattern <= s || (s != "" && Contains(s[1..], pattern)))
  }

  /** String.replace: leftmost, non-overlapping, left to right. */
  function ReplaceAll(s: string, pattern: string, replacement: string): string
    requires pattern != ""
  {
    if |s| < |pattern| then s
    else if pattern <= s then replacement + ReplaceAll(s[|pattern|..], pattern, replacement)
    else [s[0]] + ReplaceAll(s[1..], pattern, replacement)
  }

  function Placeholder(key: string): (p: string)
    ensures |p| == |key| + 4
  {
    "{{" + key + "}}"
  }

  /** What the replacement loop leaves after visiting the given keys in order. */
  function SequentialFill(template: string, keys: seq<string>, data: map<string, string>): string
    decreases |keys|
  {
    if keys == [] then template
    else
      var value := if keys[0] in data then data[keys[0]] else "";
      SequentialFill(ReplaceAll(template, Placeholder(keys[0]), value), keys[1..], data)
  }

  lemma {:induction false} ReplaceNothing(s: string, pattern: string, replacement: string)
    requires pattern != "" && !Contains(s, pattern)
    ensures ReplaceAll(s, pattern, replacement) == s
  {
    if |s| >= |pattern| {
      ReplaceNothing(s[1..], pattern, replacement);
    }
  }

  lemma {:induction false} SequentialFillSnoc(template: string, keys: seq<string>, key: string,
                                              data: map<string, string>)
    ensures SequentialFill(template, keys + [key], data)
         == ReplaceAll(SequentialFill(template, keys, data), Placeholder(key), if key in data then data[key] else "")
    decreases |keys|
  {
    if keys == [] {
      assert (keys + [key])[1..] == [];
    } else {
      assert (keys + [key])[1..] == keys[1..] + [key];
      var value := if keys[0] in data then data[keys[0]] else "";
      SequentialFillSnoc(ReplaceAll(template, Placeholder(keys[0]), value), keys[1..], key, data);
    }
  }

  /** The loop itself. `keys` is the iteration order of the key set; the contains test only saves work. */
  method Interpolate(template: string, keys: seq<string>, data: map<string, string>) returns (result: string)
    ensures result == SequentialFill(template, keys, data)
  {
    result := template;
    for i := 0 to |keys|
      invariant result == SequentialFill(template, keys[..i], data)
    {
      var key := keys[i];
      var value := if key in data then data[key] else "";
      assert keys[..i + 1] == keys[..i] + [key];
      SequentialFillSnoc(template, keys[..i], key, data);
      var placeholder := Placeholder(key);
      if Contains(result, placeholder) {
        result := ReplaceAll(result, placeholder, value);
      } else {
        ReplaceNothing(result, placeholder, value);
      }
    }
    assert keys[..|keys|] == keys;
  }

  // ----- templates as literals and holes -----

  datatype Part = Literal(text: string) | Hole(key: string)

  predicate BraceFree(s: string)
  {
    forall i :: 0 <= i < |s| ==> s[i] != '{' && s[i] != '}'
  }

  predicate WellFormed(parts: seq<Part>)
  {
    forall i :: 0 <= i < |parts| ==> match parts[i] case Literal(t) => BraceFree(t) case Hole(k) => BraceFree(k)
  }

  function PartText(part: Part): string
  {
    match part case Literal(t) => t case Hole(k) => Placeholder(k)
  }

  function Render(parts: seq<Part>): string
  {
    if parts == [] then "" else PartText(parts[0]) + Render(parts[1..])
  }

  function FillPart(part: Part, data: map<string, string>): Part
  {
    if part.Hole? && part.key in data then Literal(data[part.key]) else part
  }

  /** One simultaneous substitution: every known hole is filled from the same data, unknown holes stay. */
  function Substitute(parts: seq<Part>, data: map<string, string>): seq<Part>
  {
    seq(|parts|, i requires 0 <= i < |parts| => FillPart(parts[i], data))
  }

  /** A prefix in which no occurrence of the pattern starts is copied through. */
  lemma NoneLater(prefix: string, rest: string, pattern: string)
    requires prefix != "" && forall i :: 0 <= i < |prefix| ==> !(pattern <= (prefix + rest)[i..])
    ensures forall i :: 0 <= i < |prefix[1..]| ==> !(pattern <= (prefix[1..] + rest)[i..])
  {
    forall i | 0 <= i < |prefix[1..]| ensures !(pattern <= (prefix[1..] + rest)[i..]) {
      assert (prefix[1..] + rest)[i..] == (prefix + rest)[i + 1..];
    }
  }

  lemma {:induction false} ReplaceSkips(prefix: string, rest: string, pattern: string, replacement: string)
    requires pattern != ""
    requires forall i :: 0 <= i < |prefix| ==> !(pattern <= (prefix + rest)[i..])
    ensures ReplaceAll(prefix + rest, pattern, replacement) == prefix + ReplaceAll(rest, pattern, replacement)
  {
    var whole := prefix + rest;
    if prefix == "" {
      assert whole == rest;
    } else {
      assert whole[0..] == whole;
      assert whole[1..] == prefix[1..] + rest;
      NoneLater(prefix, rest, pattern);
      ReplaceSkips(prefix[1..], rest, pattern, replacement);
      if |whole| < |pattern| {
        assert ReplaceAll(rest, pattern, replacement) == rest;
      } else {
        assert ReplaceAll(whole, pattern, replacement) == [whole[0]] + ReplaceAll(whole[1..], pattern, replacement);
        assert [whole[0]] + (prefix[1..] + ReplaceAll(rest, pattern, replacement))
            == prefix + ReplaceAll(rest, pattern, replacement);
      }
    }
  }

  /** No placeholder starts inside a brace-free literal, nor inside another key's placeholder. */
  lemma NoOccurrence(part: Part, rest: string, key: string, i: nat)
    requires WellFormed([part]) && BraceFree(key) && part != Hole(key)
    requires i < |PartText(part)|
    ensures !(Placeholder(key) <= (PartText(part) + rest)[i..])
  {
    assert [part][0] == part;
    var p := Placeholder(key);
    var text := PartText(part) + rest;
    assert p[0] == '{' && p[1] == '{';
    if p <= text[i..] {
      assert text[i] == text[i..][0] == p[0];
      assert text[i + 1] == text[i..][1] == p[1];
      if part.Literal? {
        assert false;
      } else {
        var other := part.key;
        assert i == 0;
        var n := if |key| < |other| then |key| else |other|;
        assert text[i..][2 + n] == p[2 + n];
        if |key| == |other| {
          forall j | 0 <= j < |key| ensures key[j] == other[j] {
            assert text[i..][2 + j] == p[2 + j];
          }
        }
      }
    }
  }

  lemma {:induction false} ReplaceRender(parts: seq<Part>, key: string, value: string)
    requires WellFormed(parts) && BraceFree(key)
    ensures ReplaceAll(Render(parts), Placeholder(key), value) == Render(Substitute(parts, map[key := value]))
  {
    if parts != [] {
      var part, rest := parts[0], Render(parts[1..]);
      var p := Placeholder(key);
      ReplaceRender(parts[1..], key, value);
      assert Substitute(parts, map[key := value])[1..] == Substitute(parts[1..], map[key := value]);
      if part == Hole(key) {
        assert Render(parts)[|p|..] == rest;
      } else {
        forall i | 0 <= i < |PartText(part)|
          ensures !(p <= (PartText(part) + rest)[i..])
        {
          NoOccurrence(part, rest, key, i);
        }
        ReplaceSkips(PartText(part), rest, p, value);
      }
    }
  }

  predicate BraceFreeData(data: map<string, string>)
  {
    forall k :: k in data ==> BraceFree(k) && BraceFree(data[k])
  }

  function Visited(keys: seq<string>, data: map<string, string>): map<string, string>
  {
    map k | k in data && k in keys :: data[k]
  }

  lemma SubstituteFirst(parts: seq<Part>, keys: seq<string>, data: map<string, string>)
    requires keys != [] && forall k :: k in keys ==> k in data
    ensures keys[0] in keys
    ensures var once := Substitute(parts, map[keys[0] := data[keys[0]]]);
            Substitute(once, Visited(keys[1..], data)) == Substitute(parts, Visited(keys, data))
  {
  }

  /** After any prefix of the loop exactly the visited keys are filled, whatever their order. */
  lemma {:induction false} FillVisited(parts: seq<Part>, keys: seq<string>, data: map<string, string>)
    requires WellFormed(parts) && BraceFreeData(data)
    requires forall k :: k in keys ==> k in data
    ensures SequentialFill(Render(parts), keys, data) == Render(Substitute(parts, Visited(keys, data)))
    decreases |keys|
  {
    if keys == [] {
      assert Substitute(parts, Visited(keys, data)) == parts;
    } else {
      var key := keys[0];
      assert key in keys;
      ReplaceRender(parts, key, data[key]);
      var once := Substitute(parts, map[key := data[key]]);
      forall k | k in keys[1..] ensures k in data {
        assert k in keys;
      }
      FillVisited(once, keys[1..], data);
      SubstituteFirst(parts, keys, data);
    }
  }

  /** Order independence: any enumeration of the key set gives the one simultaneous substitution,
      in which placeholders of unknown keys survive verbatim. */
  lemma OrderIsIrrelevant(parts: seq<Part>, keys: seq<string>, data: map<string, string>)
    requires WellFormed(parts) && BraceFreeData(data)
    requires forall k :: k in keys <==> k in data
    ensures SequentialFill(Render(parts), keys, data) == Render(Substitute(parts, data))
  {
    FillVisited(parts, keys, data);
    assert Visited(keys, data) == data;
  }

  /** The brace-free condition on values is needed: a value that spells a placeholder makes the order visible. */
  lemma OrderMattersWithBraces()
    ensures var data := map["a" := "{{b}}", "b" := "x"];
            && SequentialFill("{{a}}", ["a", "b"], data) == "x"
            && SequentialFill("{{a}}", ["b", "a"], data) == "{{b}}"
  {
    var data := map["a" := "{{b}}", "b" := "x"];
    assert "{{a}}"[|"{{a}}"|..] == "";
    assert "{{b}}"[|"{{b}}"|..] == "";
    assert ReplaceAll("{{a}}", Placeholder("a"), "{{b}}")
        == "{{b}}" + ReplaceAll("", Placeholder("a"), "{{b}}") == "{{b}}";
    assert ReplaceAll("{{b}}", Placeholder("b"), "x") == "x" + ReplaceAll("", Placeholder("b"), "x") == "x";
    assert !Contains("{{a}}", Placeholder("b")) by {
      assert !(Placeholder("b") <= "{{a}}") by {
        assert Placeholder("b")[2] == 'b';
      }
    }
    ReplaceNothing("{{a}}", Placeholder("b"), "x");
    assert SequentialFill("{{b}}", ["b"], data) == SequentialFill("x", [], data);
    assert SequentialFill("{{a}}", ["a"], data) == SequentialFill("{{b}}", [], data);
  }
}
