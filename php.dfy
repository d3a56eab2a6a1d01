/**
 * The few PHP built-ins whose exact behaviour the controller depends on:
 * truthiness of strings, absint(), explode()/implode(), trim(), strpos(...) === 0
 * and str_replace() with an empty replacement.
 */
module Php {

  /** PHP's truthiness of a string: "" and "0" are the only false strings. */
  predicate Truthy(s: string) {
    s != "" && s != "0"
  }

  /** absint(): the absolute value of an integer. */
  function AbsInt(x: int): nat {
    if x < 0 then -x else x
  }

  /** strpos(s, prefix) === 0 */
  predicate StartsWith(s: string, prefix: string) {
    |prefix| <= |s| && s[..|prefix|] == prefix
  }

  /** The characters trim() removes by default: space, tab, line feed, carriage return, NUL and vertical tab. */
  predicate IsTrimmable(c: char) {
    c == ' ' || c == '\t' || c == '\n' || c == '\r' || c == '\0' || c == '\U{B}'
  }

  predicate AllTrimmable(s: string) {
    forall i :: 0 <= i < |s| ==> IsTrimmable(s[i])
  }

  /** A string that trim() leaves as it is. */
  predicate Trimmed(s: string) {
    s == [] || (!IsTrimmable(s[0]) && !IsTrimmable(s[|s| - 1]))
  }

  function TrimLeft(s: string): (r: string)
    ensures r == [] || !IsTrimmable(r[0])
    ensures |r| <= |s| && r == s[|s| - |r|..]
  {
    if s != [] && IsTrimmable(s[0]) then TrimLeft(s[1..]) else s
  }

  function TrimRight(s: string): (r: string)
    ensures r == [] || !IsTrimmable(r[|r| - 1])
    ensures |r| <= |s| && r == s[..|r|]
  {
    if s != [] && IsTrimmable(s[|s| - 1]) then TrimRight(s[..|s| - 1]) else s
  }

  /** trim(): the result starts and ends with a character trim() keeps. */
  function Trim(s: string): (r: string)
    ensures Trimmed(r)
  {
    TrimRight(TrimLeft(s))
  }

  /** array_map('trim', xs) */
  function TrimAll(xs: seq<string>): (r: seq<string>)
    ensures |r| == |xs|
  {
    if xs == [] then [] else [Trim(xs[0])] + TrimAll(xs[1..])
  }

  /**
   * explode(sep, s) for a one-character separator: the pieces between the
   * separators, at least one piece, none of them holding the separator.
   */
  function Explode(sep: char, s: string): (r: seq<string>)
    ensures |r| >= 1
    ensures forall i :: 0 <= i < |r| ==> sep !in r[i]
  {
    if s == [] then [""]
    else
      var rest := Explode(sep, s[1..]);
      if s[0] == sep then [""] + rest else [[s[0]] + rest[0]] + rest[1..]
  }

  /** implode(glue, xs) */
  function Implode(glue: string, xs: seq<string>): string {
    if |xs| == 0 then ""
    else if |xs| == 1 then xs[0]
    else xs[0] + glue + Implode(glue, xs[1..])
  }

  /**
   * str_replace(needle, '', s): every occurrence of the needle found scanning
   * left to right is removed; the text after a removed occurrence is scanned afresh.
   */
  function RemoveAll(s: string, needle: string): (r: string)
    requires needle != []
    ensures |r| <= |s|
    decreases |s|
  {
    if |s| < |needle| then s
    else if s[..|needle|] == needle then RemoveAll(s[|needle|..], needle)
    else [s[0]] + RemoveAll(s[1..], needle)
  }

  /** The needle occurs somewhere in s. */
  predicate Occurs(needle: string, s: string)
    decreases |s|
  {
    |needle| <= |s| && (s[..|needle|] == needle || Occurs(needle, s[1..]))
  }

  /** The ASCII lower-case form of s (PHP resolves class names case-insensitively). */
  function Lower(s: string): string {
    seq(|s|, i requires 0 <= i < |s| => if 'A' <= s[i] <= 'Z' then (s[i] as int + 32) as char else s[i])
  }

  // ---------------------------------------------------------------------------
  // Lemmas

  /** A string without the separator explodes into itself. */
  lemma {:induction false} ExplodeWithoutSeparator(sep: char, s: string)
    requires sep !in s
    ensures Explode(sep, s) == [s]
  {
    if s != [] {
      assert sep !in s[1..] by {
        forall c | c in s[1..] ensures c != sep { }
      }
      ExplodeWithoutSeparator(sep, s[1..]);
      assert s[0] != sep;
      assert [s[0]] + s[1..] == s;
    }
  }

  /** explode() splits at the first separator and carries on after it. */
  lemma {:induction false} ExplodeAtSeparator(sep: char, a: string, b: string)
    requires sep !in a
    ensures Explode(sep, a + [sep] + b) == [a] + Explode(sep, b)
  {
    var s := a + [sep] + b;
    if a == [] {
      assert s == [sep] + b;
      assert s[1..] == b;
    } else {
      assert s[1..] == a[1..] + [sep] + b;
      assert sep !in a[1..] by {
        forall c | c in a[1..] ensures c != sep { assert c in a; }
      }
      ExplodeAtSeparator(sep, a[1..], b);
      assert [a[0]] + a[1..] == a;
    }
  }

  lemma {:induction false} TrimLeftSkipsPadding(pad: string, rest: string)
    requires AllTrimmable(pad)
    ensures TrimLeft(pad + rest) == TrimLeft(rest)
  {
    if pad != [] {
      assert (pad + rest)[0] == pad[0] && IsTrimmable(pad[0]);
      assert TrimLeft(pad + rest) == TrimLeft((pad + rest)[1..]);
      assert (pad + rest)[1..] == pad[1..] + rest;
      assert AllTrimmable(pad[1..]) by {
        forall i | 0 <= i < |pad[1..]| ensures IsTrimmable(pad[1..][i]) { assert pad[1..][i] == pad[i + 1]; }
      }
      TrimLeftSkipsPadding(pad[1..], rest);
    } else {
      assert pad + rest == rest;
    }
  }

  lemma {:induction false} TrimRightSkipsPadding(s: string, pad: string)
    requires AllTrimmable(pad)
    ensures TrimRight(s + pad) == TrimRight(s)
  {
    if pad != [] {
      var p := pad[..|pad| - 1];
      assert (s + pad)[..|s + pad| - 1] == s + p;
      TrimRightSkipsPadding(s, p);
    } else {
      assert s + pad == s;
    }
  }

  /** Padding with trimmable characters on either side of a trimmed string is undone by trim(). */
  lemma {:induction false} TrimPadded(pad: string, x: string, tail: string)
    requires AllTrimmable(pad) && AllTrimmable(tail) && Trimmed(x)
    ensures Trim(pad + x + tail) == x
  {
    assert pad + x + tail == pad + (x + tail);
    TrimLeftSkipsPadding(pad, x + tail);
    if x == [] {
      assert x + tail == tail;
      TrimLeftSkipsPadding(tail, []);
      assert tail + [] == tail;
    } else {
      assert (x + tail)[0] == x[0];
      TrimRightSkipsPadding(x, tail);
    }
  }

  /** Text the round trip below may find around an option: trimmable, and free of '|'. */
  predicate Padding(s: string) {
    AllTrimmable(s) && '|' !in s
  }

  lemma EmptyAndSpaceArePadding()
    ensures Padding("") && Padding(" ")
  {
    assert IsTrimmable(" "[0]);
  }

  lemma {:induction false} TrimAllSingle(x: string)
    ensures TrimAll([x]) == [Trim(x)]
  {
  }

  lemma {:induction false} TrimAllCons(x: string, xs: seq<string>)
    ensures TrimAll([x] + xs) == [Trim(x)] + TrimAll(xs)
  {
    assert ([x] + xs)[0] == x;
    assert ([x] + xs)[1..] == xs;
  }

  lemma {:induction false} NoBarInConcat(a: string, b: string)
    requires '|' !in a && '|' !in b
    ensures '|' !in a + b
  {
  }

  lemma {:induction false} ImplodeCons(pad: string, xs: seq<string>)
    requires |xs| >= 2
    ensures pad + Implode(" | ", xs) == (pad + xs[0] + " ") + ['|'] + (" " + Implode(" | ", xs[1..]))
  {
  }

  /** The first option, with its padding, is the first piece explode() finds. */
  lemma {:induction false} SplitFirstOption(pad: string, xs: seq<string>)
    requires Padding(pad) && |xs| >= 2 && '|' !in xs[0]
    ensures Explode('|', pad + Implode(" | ", xs)) ==
      [pad + xs[0] + " "] + Explode('|', " " + Implode(" | ", xs[1..]))
  {
    ImplodeCons(pad, xs);
    EmptyAndSpaceArePadding();
    NoBarInConcat(pad, xs[0]);
    NoBarInConcat(pad + xs[0], " ");
    ExplodeAtSeparator('|', pad + xs[0] + " ", " " + Implode(" | ", xs[1..]));
  }

  lemma {:induction false} SingleOptionRoundTrip(pad: string, x: string)
    requires Padding(pad)
    requires '|' !in x && Trimmed(x)
    ensures TrimAll(Explode('|', pad + x)) == [x]
  {
    NoBarInConcat(pad, x);
    ExplodeWithoutSeparator('|', pad + x);
    EmptyAndSpaceArePadding();
    TrimPadded(pad, x, "");
    assert pad + x + "" == pad + x;
    TrimAllSingle(pad + x);
  }

  /** Options the round trip gives back: each trimmed and free of '|'. */
  predicate CleanOptionList(xs: seq<string>) {
    forall i :: 0 <= i < |xs| ==> '|' !in xs[i] && Trimmed(xs[i])
  }

  lemma CleanTail(xs: seq<string>)
    requires |xs| >= 1 && CleanOptionList(xs)
    ensures CleanOptionList(xs[1..]) && '|' !in xs[0] && Trimmed(xs[0])
  {
    forall i | 0 <= i < |xs| - 1 ensures '|' !in xs[1..][i] && Trimmed(xs[1..][i]) {
      assert xs[1..][i] == xs[i + 1];
    }
  }

  /** One more option in front: the round trip of the tail extends to the whole list. */
  lemma {:induction false} OptionsRoundTripStep(pad: string, xs: seq<string>)
    requires Padding(pad) && |xs| >= 2 && '|' !in xs[0] && Trimmed(xs[0])
    requires TrimAll(Explode('|', " " + Implode(" | ", xs[1..]))) == xs[1..]
    ensures TrimAll(Explode('|', pad + Implode(" | ", xs))) == xs
  {
    var head := pad + xs[0] + " ";
    var pieces := Explode('|', " " + Implode(" | ", xs[1..]));
    SplitFirstOption(pad, xs);
    EmptyAndSpaceArePadding();
    TrimPadded(pad, xs[0], " ");
    TrimAllCons(head, pieces);
    assert xs == [xs[0]] + xs[1..];
  }

  lemma {:induction false} PaddedOptionsRoundTrip(pad: string, xs: seq<string>)
    requires Padding(pad)
    requires |xs| >= 1 && CleanOptionList(xs)
    ensures TrimAll(Explode('|', pad + Implode(" | ", xs))) == xs
    decreases |xs|
  {
    CleanTail(xs);
    if |xs| == 1 {
      assert Implode(" | ", xs) == xs[0];
      SingleOptionRoundTrip(pad, xs[0]);
    } else {
      EmptyAndSpaceArePadding();
      PaddedOptionsRoundTrip(" ", xs[1..]);
      OptionsRoundTripStep(pad, xs);
    }
  }

  /**
   * Options joined with " | " and read back by splitting on '|' and trimming
   * each piece come back unchanged, provided there is at least one option and
   * every option is trimmed and holds no '|'.
   */
  lemma {:induction false} OptionsRoundTrip(xs: seq<string>)
    requires |xs| >= 1
    requires forall i :: 0 <= i < |xs| ==> '|' !in xs[i] && Trimmed(xs[i])
    ensures TrimAll(Explode('|', Implode(" | ", xs))) == xs
  {
    EmptyAndSpaceArePadding();
    PaddedOptionsRoundTrip("", xs);
    assert "" + Implode(" | ", xs) == Implode(" | ", xs);
  }

  /** An empty option list comes back as one empty option. */
  lemma {:induction false} EmptyOptionsComeBackAsOneEmptyOption()
    ensures TrimAll(Explode('|', Implode(" | ", []))) == [""]
  {
    assert Implode(" | ", []) == "";
    assert Explode('|', "") == [""];
    assert TrimLeft("") == "" && TrimRight("") == "";
    TrimAllSingle("");
  }

  /** str_replace leaves a string without the needle untouched. */
  lemma {:induction false} RemoveAllWithoutNeedle(s: string, needle: string)
    requires needle != [] && !Occurs(needle, s)
    ensures RemoveAll(s, needle) == s
    decreases |s|
  {
    if |s| >= |needle| {
      RemoveAllWithoutNeedle(s[1..], needle);
      assert [s[0]] + s[1..] == s;
    }
  }

  /** A leading needle is removed and the rest survives when it holds no further needle. */
  lemma {:induction false} RemoveAllStripsPrefix(needle: string, rest: string)
    requires needle != [] && !Occurs(needle, rest)
    ensures RemoveAll(needle + rest, needle) == rest
  {
    var s := needle + rest;
    assert s[..|needle|] == needle;
    assert s[|needle|..] == rest;
    RemoveAllWithoutNeedle(rest, needle);
  }
}
