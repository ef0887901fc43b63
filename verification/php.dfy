/**
 The few PHP string built-ins the global-service code relies on, with the
 semantics PHP gives them (not the ones their names suggest).
 */
module Php {

  /** `empty($s)` for a string: PHP treats both "" and "0" as empty. */
  predicate Empty(s: string)
  {
    s == "" || s == "0"
  }

  /** The characters `trim` strips when no character list is given. */
  const Whitespace: set<char> := {' ', '\t', '\n', '\r', '\0', '\U{B}'}

  /** The character list `ltrim($c, 'ee-')` strips: a set, not a prefix. */
  const EeChars: set<char> := {'e', '-'}

  /** `ltrim($s, $chars)`: drops the longest prefix made only of `chars`. */
  function LTrim(s: string, chars: set<char>): (r: string)
    ensures |r| <= |s| && r == s[|s| - |r|..]
    ensures forall i :: 0 <= i < |s| - |r| ==> s[i] in chars
    ensures r == [] || r[0] !in chars
    decreases |s|
  {
    if |s| > 0 && s[0] in chars then
      var r := LTrim(s[1..], chars);
      assert forall i :: 1 <= i < |s| - |r| ==> s[i] == s[1..][i - 1];
      r
    else s
  }

  /** `rtrim($s, $chars)`: drops the longest suffix made only of `chars`. */
  function RTrim(s: string, chars: set<char>): (r: string)
    ensures |r| <= |s| && r == s[..|r|]
    ensures forall i :: |r| <= i < |s| ==> s[i] in chars
    ensures r == [] || r[|r| - 1] !in chars
    decreases |s|
  {
    if |s| > 0 && s[|s| - 1] in chars then
      var r := RTrim(s[..|s| - 1], chars);
      assert forall i :: |r| <= i < |s| - 1 ==> s[i] == s[..|s| - 1][i];
      r
    else s
  }

  /** `trim($s)`. */
  function Trim(s: string): string
  {
    RTrim(LTrim(s, Whitespace), Whitespace)
  }

  /** True when every character of `s` is whitespace. */
  predicate Blank(s: string)
  {
    forall i :: 0 <= i < |s| ==> s[i] in Whitespace
  }

  /** `implode($sep, $xs)`. */
  function Implode(sep: string, xs: seq<string>): string
    decreases |xs|
  {
    if |xs| == 0 then ""
    else if |xs| == 1 then xs[0]
    else xs[0] + sep + Implode(sep, xs[1..])
  }

  /** The string a `foreach` loop builds by appending `f($x)` for each element, in order. */
  function ConcatMap(f: string -> string, xs: seq<string>): string
    decreases |xs|
  {
    if |xs| == 0 then "" else f(xs[0]) + ConcatMap(f, xs[1..])
  }

  /** Looping over two lists one after the other builds the two strings one after the other. */
  lemma {:induction false} ConcatMapAppend(f: string -> string, a: seq<string>, b: seq<string>)
    ensures ConcatMap(f, a + b) == ConcatMap(f, a) + ConcatMap(f, b)
    decreases |a|
  {
    if |a| > 0 {
      assert (a + b)[0] == a[0];
      assert (a + b)[1..] == a[1..] + b;
      ConcatMapAppend(f, a[1..], b);
      assert f(a[0]) + (ConcatMap(f, a[1..]) + ConcatMap(f, b)) == (f(a[0]) + ConcatMap(f, a[1..])) + ConcatMap(f, b);
    } else {
      assert a + b == b;
    }
  }

  /** Trimming leaves nothing exactly when the string is all whitespace. */
  lemma TrimEmptyIffBlank(s: string)
    ensures Trim(s) == "" <==> Blank(s)
  {
    var l := LTrim(s, Whitespace);
    if Trim(s) == "" {
      forall i | 0 <= i < |s|
        ensures s[i] in Whitespace
      {
        if i >= |s| - |l| {
          assert s[i] == l[i - (|s| - |l|)];
        }
      }
    } else {
      var r := Trim(s);
      assert r[0] == l[0];
      assert l[0] == s[|s| - |l|];
    }
  }

  /** A string that neither starts nor ends with whitespace is left alone by `trim`. */
  lemma TrimUnchanged(s: string)
    requires |s| > 0 && s[0] !in Whitespace && s[|s| - 1] !in Whitespace
    ensures Trim(s) == s
  {
    assert LTrim(s, Whitespace) == s;
  }

  /** Joining with a space is blank exactly when every joined part is blank. */
  lemma {:induction false} ImplodeBlank(xs: seq<string>)
    ensures Blank(Implode(" ", xs)) <==> forall i :: 0 <= i < |xs| ==> Blank(xs[i])
    decreases |xs|
  {
    if |xs| >= 2 {
      ImplodeBlank(xs[1..]);
      var rest := Implode(" ", xs[1..]);
      var whole := xs[0] + " " + rest;
      assert Implode(" ", xs) == whole;
      if Blank(whole) {
        forall i | 0 <= i < |xs[0]|
          ensures xs[0][i] in Whitespace
        {
          assert whole[i] == xs[0][i];
        }
        forall i | 0 <= i < |rest|
          ensures rest[i] in Whitespace
        {
          assert whole[|xs[0]| + 1 + i] == rest[i];
        }
        forall i | 0 <= i < |xs|
          ensures Blank(xs[i])
        {
          if i > 0 {
            assert xs[i] == xs[1..][i - 1];
          }
        }
      }
      if forall i :: 0 <= i < |xs| ==> Blank(xs[i]) {
        assert Blank(xs[0]);
        forall i | 0 <= i < |xs[1..]|
          ensures Blank(xs[1..][i])
        {
          assert xs[1..][i] == xs[i + 1];
        }
        forall i | 0 <= i < |whole|
          ensures whole[i] in Whitespace
        {
          if i < |xs[0]| {
            assert whole[i] == xs[0][i];
          } else if i > |xs[0]| {
            assert whole[i] == rest[i - |xs[0]| - 1];
          }
        }
      }
    }
  }

  /** `ltrim` removes a leading run of `chars` and stops at the first other character. */
  lemma {:induction false} LTrimStripsRun(run: string, rest: string, chars: set<char>)
    requires forall i :: 0 <= i < |run| ==> run[i] in chars
    requires rest == [] || rest[0] !in chars
    ensures LTrim(run + rest, chars) == rest
    decreases |run|
  {
    if |run| > 0 {
      assert (run + rest)[0] == run[0];
      assert (run + rest)[1..] == run[1..] + rest;
      LTrimStripsRun(run[1..], rest, chars);
    } else {
      assert run + rest == rest;
    }
  }

  /** Stripping {e, -} from "ee-" + name gives name back when name starts otherwise. */
  lemma LTrimDropsEePrefix(name: string)
    requires |name| > 0 && name[0] !in EeChars
    ensures LTrim("ee-" + name, EeChars) == name
  {
    LTrimStripsRun("ee-", name, EeChars);
  }

  /**
   `ltrim($c, 'ee-')` is not prefix removal: it also eats an `e` that belongs
   to the name itself, so it is only correct for names whose first character
   after "ee-" is neither `e` nor `-`.
   */
  lemma LTrimIsNotPrefixRemoval()
    ensures LTrim("ee-" + "example", EeChars) == "xample"
    ensures LTrim("ee-" + "example", EeChars) != ("ee-" + "example")[3..]
  {
    var name := "ee-" + "example";
    assert name == "ee-e" + "xample" by {
      assert |name| == |"ee-e" + "xample"|;
      forall i | 0 <= i < |name|
        ensures name[i] == ("ee-e" + "xample")[i]
      {
      }
    }
    LTrimStripsRun("ee-e", "xample", EeChars);
    assert |name[3..]| == 7;
  }

  /** Stripping a character set twice strips nothing more. */
  lemma LTrimIdempotent(s: string, chars: set<char>)
    ensures LTrim(LTrim(s, chars), chars) == LTrim(s, chars)
  {
  }
}
