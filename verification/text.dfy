/**
 String helpers shared by the generator rules: the null-or-empty test of
 MyBatis Generator's StringUtility, ASCII case mapping, Guava's comma
 splitter and the positional `{0}`/`{1}` substitution of MessageFormat.
 A Java `null` string is represented by the empty string wherever the
 source only ever asks whether the string "has a value".
 */
module Text {

  /** StringUtility.stringHasValue: not null and not empty. */
  predicate HasValue(s: string) {
    |s| > 0
  }

  /** StringUtility.stringContainsSpace: contains the character ' '. */
  predicate ContainsSpace(s: string) {
    ' ' in s
  }

  predicate StartsWith(s: string, prefix: string) {
    prefix <= s
  }

  lemma StartsWithAppend(s: string, t: string, prefix: string)
    requires StartsWith(s, prefix)
    ensures StartsWith(s + t, prefix)
  {
    assert (s + t)[..|s|] == s;
  }

  /** Character.toUpperCase, restricted to the ASCII letters. */
  function UpperChar(c: char): (u: char)
    ensures 'a' <= c <= 'z' ==> 'A' <= u <= 'Z' && u as int == c as int - 32
    ensures !('a' <= c <= 'z') ==> u == c
  {
    if 'a' <= c <= 'z' then (c as int - 32) as char else c
  }

  /** String.toUpperCase, restricted to the ASCII letters. */
  function Upper(s: string): string {
    seq(|s|, i requires 0 <= i < |s| => UpperChar(s[i]))
  }

  /** String.equalsIgnoreCase, with ASCII case folding. */
  predicate EqualsIgnoreCase(a: string, b: string) {
    |a| == |b| && forall i :: 0 <= i < |a| ==> UpperChar(a[i]) == UpperChar(b[i])
  }

  lemma EqualsIgnoreCaseReflexive(a: string)
    ensures EqualsIgnoreCase(a, a)
  {
  }

  /** The first character upper-cased, the rest unchanged (StringBuilder.setCharAt(0, ...)). */
  function Capitalize(s: string): (r: string)
    requires |s| > 0
    ensures |r| == |s| && r[1..] == s[1..]
    ensures r[0] == UpperChar(s[0])
  {
    [UpperChar(s[0])] + s[1..]
  }

  /**
   Guava's Splitter.on(sep).splitToList: every occurrence of `sep`
   separates two pieces, empty pieces are kept, nothing is trimmed.
   */
  function Split(s: string, sep: char): (pieces: seq<string>)
    ensures |pieces| >= 1
    decreases |s|
  {
    if |s| == 0 then [""]
    else
      var rest := Split(s[1..], sep);
      if s[0] == sep then [""] + rest
      else [[s[0]] + rest[0]] + rest[1..]
  }

  /** The pieces joined back together with `sep` between neighbours. */
  function Join(pieces: seq<string>, sep: char): string
    requires |pieces| >= 1
  {
    if |pieces| == 1 then pieces[0]
    else pieces[0] + [sep] + Join(pieces[1..], sep)
  }

  /** No piece of a split contains the separator. */
  lemma {:induction false} SplitPiecesHaveNoSeparator(s: string, sep: char)
    ensures forall i :: 0 <= i < |Split(s, sep)| ==> sep !in Split(s, sep)[i]
    decreases |s|
  {
    if |s| > 0 {
      SplitPiecesHaveNoSeparator(s[1..], sep);
      var rest := Split(s[1..], sep);
      if s[0] != sep {
        assert sep !in rest[0];
      }
    }
  }

  /** Joining the pieces of a split gives back the original string. */
  lemma {:induction false} JoinSplit(s: string, sep: char)
    ensures Join(Split(s, sep), sep) == s
    decreases |s|
  {
    if |s| > 0 {
      JoinSplit(s[1..], sep);
      var rest := Split(s[1..], sep);
      if s[0] == sep {
        assert Split(s, sep) == [""] + rest;
        assert ([""] + rest)[1..] == rest;
        assert s == [sep] + s[1..];
      } else {
        var pieces := Split(s, sep);
        assert pieces == [[s[0]] + rest[0]] + rest[1..];
        if |rest| == 1 {
          assert Join(pieces, sep) == [s[0]] + rest[0];
          assert s == [s[0]] + s[1..];
        } else {
          assert pieces[1..] == rest[1..];
          assert Join(rest, sep) == rest[0] + [sep] + Join(rest[1..], sep);
          assert s == [s[0]] + s[1..];
        }
      }
    }
  }

  /** Splitting a string whose prefix holds no separator extends the first piece. */
  lemma {:induction false} SplitSeparatorFreePrefix(x: string, tail: string, sep: char)
    requires sep !in x
    ensures Split(x + tail, sep) == [x + Split(tail, sep)[0]] + Split(tail, sep)[1..]
    decreases |x|
  {
    if |x| > 0 {
      assert (x + tail)[1..] == x[1..] + tail;
      SplitSeparatorFreePrefix(x[1..], tail, sep);
      var pieces := Split(tail, sep);
      var rest := Split(x[1..] + tail, sep);
      assert (x + tail)[0] == x[0] && x[0] != sep;
      assert Split(x + tail, sep) == [[x[0]] + rest[0]] + rest[1..];
      assert rest[0] == x[1..] + pieces[0];
      assert rest[1..] == pieces[1..];
      assert [x[0]] + (x[1..] + pieces[0]) == x + pieces[0];
    } else {
      var pieces := Split(tail, sep);
      assert x + tail == tail;
      assert x + pieces[0] == pieces[0];
      assert pieces == [pieces[0]] + pieces[1..];
    }
  }

  /** Splitting a join of separator-free pieces gives back exactly those pieces. */
  lemma {:induction false} SplitJoin(pieces: seq<string>, sep: char)
    requires |pieces| >= 1
    requires forall i :: 0 <= i < |pieces| ==> sep !in pieces[i]
    ensures Split(Join(pieces, sep), sep) == pieces
    decreases |pieces|
  {
    if |pieces| == 1 {
      SplitSeparatorFreePrefix(pieces[0], "", sep);
      assert pieces[0] + "" == pieces[0];
    } else {
      var tail := [sep] + Join(pieces[1..], sep);
      assert Join(pieces, sep) == pieces[0] + tail;
      SplitSeparatorFreePrefix(pieces[0], tail, sep);
      SplitJoin(pieces[1..], sep);
      assert pieces[0] + "" == pieces[0];
      assert pieces == [pieces[0]] + pieces[1..];
    }
  }

  /**
   MessageFormat.format restricted to plain positional arguments:
   every `{0}` is replaced by `a0`, every `{1}` by `a1`, everything else
   is copied.
   */
  function Format(template: string, a0: string, a1: string): string
    decreases |template|
  {
    if |template| == 0 then ""
    else if |template| >= 3 && template[..3] == "{0}" then a0 + Format(template[3..], a0, a1)
    else if |template| >= 3 && template[..3] == "{1}" then a1 + Format(template[3..], a0, a1)
    else [template[0]] + Format(template[1..], a0, a1)
  }

  /** Text free of `{` passes through the substitution unchanged. */
  lemma {:induction false} FormatLiteralPrefix(literal: string, rest: string, a0: string, a1: string)
    requires '{' !in literal
    ensures Format(literal + rest, a0, a1) == literal + Format(rest, a0, a1)
    decreases |literal|
  {
    if |literal| > 0 {
      var t := literal + rest;
      assert t[0] == literal[0];
      assert t[0] != '{';
      assert t[1..] == literal[1..] + rest;
      FormatLiteralPrefix(literal[1..], rest, a0, a1);
      assert literal == [literal[0]] + literal[1..];
    } else {
      assert literal + rest == rest;
    }
  }

  /** A template without placeholders is its own formatting. */
  lemma FormatNoPlaceholder(template: string, a0: string, a1: string)
    requires '{' !in template
    ensures Format(template, a0, a1) == template
  {
    FormatLiteralPrefix(template, "", a0, a1);
    assert template + "" == template;
  }

  /** A leading `{0}` or `{1}` is replaced by its argument. */
  lemma FormatPlaceholderPrefix(index: nat, rest: string, a0: string, a1: string)
    ensures Format((if index == 0 then "{0}" else "{1}") + rest, a0, a1)
         == (if index == 0 then a0 else a1) + Format(rest, a0, a1)
  {
    var t := (if index == 0 then "{0}" else "{1}") + rest;
    assert t[..3] == (if index == 0 then "{0}" else "{1}");
    assert t[3..] == rest;
  }
}
