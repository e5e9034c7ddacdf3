/** Splitting a string at a single-character delimiter, and the inverse joining.

    The connection-info parser hands its input to a tokenizer before it looks
    at the fields.  That tokenizer lives in a utility header that is not part
    of this model; `Split` below is a concrete stand-in that keeps EVERY
    segment, including empty ones, and its contract is what the parser relies
    on: the pieces never contain the delimiter, joining them gives back the
    input, and there is one piece more than there are delimiters. */
module Tokenizer {

  /** Number of occurrences of `c` in `s`. */
  function Occurrences(s: string, c: char): (n: nat)
    ensures n <= |s|
  {
    if s == [] then 0
    else (if s[0] == c then 1 else 0) + Occurrences(s[1..], c)
  }

  /** The pieces separated by `sep`, in order: the inverse of `Split`. */
  function Join(parts: seq<string>, sep: char): string
  {
    if |parts| == 0 then ""
    else if |parts| == 1 then parts[0]
    else parts[0] + [sep] + Join(parts[1..], sep)
  }

  /** Every piece is free of the delimiter. */
  predicate SeparatorFree(parts: seq<string>, sep: char)
  {
    forall i :: 0 <= i < |parts| ==> sep !in parts[i]
  }

  /** Cuts `s` at every occurrence of `sep`; empty segments are kept. */
  function Split(s: string, sep: char): (parts: seq<string>)
    ensures |parts| == Occurrences(s, sep) + 1
    ensures SeparatorFree(parts, sep)
    ensures Join(parts, sep) == s
  {
    if s == [] then [""]
    else
      var rest := Split(s[1..], sep);
      if s[0] == sep then
        assert s == [sep] + s[1..];
        [""] + rest
      else
        var first := [s[0]] + rest[0];
        var parts := [first] + rest[1..];
        assert sep !in first by {
          assert forall j :: 0 <= j < |first| ==> first[j] == s[0] || first[j] in rest[0];
        }
        assert forall i :: 1 <= i < |parts| ==> parts[i] == rest[i];
        assert |rest| > 1 ==> Join(rest, sep) == rest[0] + [sep] + Join(rest[1..], sep);
        assert parts[1..] == rest[1..];
        assert s == [s[0]] + s[1..];
        parts
  }

  /** Splitting a delimiter-free prefix followed by `tail` glues the prefix
      onto the first piece of `tail`. */
  lemma {:induction false} SplitFreePrefix(p: string, tail: string, sep: char)
    requires sep !in p
    ensures Split(p + tail, sep) == [p + Split(tail, sep)[0]] + Split(tail, sep)[1..]
  {
    if p == [] {
      var t := Split(tail, sep);
      assert p + tail == tail && p + t[0] == t[0];
      assert [t[0]] + t[1..] == t;
    } else {
      var s, t := p + tail, Split(tail, sep);
      assert s[0] == p[0] && s[0] != sep;
      assert s[1..] == p[1..] + tail;
      SplitFreePrefix(p[1..], tail, sep);
      var rest := Split(s[1..], sep);
      assert rest == [p[1..] + t[0]] + t[1..];
      assert Split(s, sep) == [[s[0]] + rest[0]] + rest[1..];
      assert [p[0]] + (p[1..] + t[0]) == p + t[0];
    }
  }

  /** Round trip: splitting the join of delimiter-free pieces gives the pieces back. */
  lemma {:induction false} SplitJoin(parts: seq<string>, sep: char)
    requires |parts| >= 1
    requires SeparatorFree(parts, sep)
    ensures Split(Join(parts, sep), sep) == parts
  {
    var p := parts[0];
    assert sep !in p;
    if |parts| == 1 {
      SplitFreePrefix(p, "", sep);
      assert p + "" == p;
    } else {
      var rest := parts[1..];
      SplitJoin(rest, sep);
      var tail := [sep] + Join(rest, sep);
      assert Split(tail, sep) == [""] + rest by {
        assert tail[1..] == Join(rest, sep);
      }
      SplitFreePrefix(p, tail, sep);
      assert Join(parts, sep) == p + tail;
      assert p + "" == p;
      assert [p] + rest == parts;
    }
  }
}
