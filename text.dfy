/**
 * The text handling the reverse conversion does itself: .NET's String.Split(char)
 * and indexing into the array it returns.
 */
module Text {
  import opened Wrappers

  /**
   * String.Split(sep): every piece of `s` between separators, empty pieces kept,
   * so there is always one more piece than there are separators.
   */
  function Split(s: string, sep: char): (parts: seq<string>)
    ensures |parts| >= 1
    ensures forall i :: 0 <= i < |parts| ==> sep !in parts[i]
    ensures |parts| == 1 <==> sep !in s
    ensures forall i, ch :: 0 <= i < |parts| && ch in parts[i] ==> ch in s
  {
    if |s| == 0 then [""]
    else
      var rest := Split(s[1..], sep);
      assert forall ch :: ch in s[1..] ==> ch in s;
      if s[0] == sep then [""] + rest
      else [[s[0]] + rest[0]] + rest[1..]
  }

  /** The inverse of Split: the pieces glued back together with the separator between them. */
  function Join(parts: seq<string>, sep: char): string
    requires |parts| >= 1
  {
    if |parts| == 1 then parts[0] else parts[0] + [sep] + Join(parts[1..], sep)
  }

  /** `s.Split(sep)[k]`, or None where .NET throws IndexOutOfRangeException. */
  function PieceAt(s: string, sep: char, k: nat): (r: Option<string>)
    ensures r.Some? <==> k < |Split(s, sep)|
    ensures r.Some? ==> sep !in r.value
  {
    var parts := Split(s, sep);
    if k < |parts| then Some(parts[k]) else None
  }

  /** Splitting a text free of the separator gives the text back as the only piece. */
  lemma {:induction false} SplitOfFree(a: string, sep: char)
    requires sep !in a
    ensures Split(a, sep) == [a]
  {
    if |a| > 0 {
      SplitOfFree(a[1..], sep);
      assert [a[0]] + a[1..] == a;
    }
  }

  /** The first separator ends the first piece; the rest is split on its own. */
  lemma {:induction false} SplitAtFirst(a: string, sep: char, b: string)
    requires sep !in a
    ensures Split(a + [sep] + b, sep) == [a] + Split(b, sep)
  {
    var s := a + [sep] + b;
    if |a| == 0 {
      assert s[1..] == b;
    } else {
      assert s[1..] == a[1..] + [sep] + b;
      SplitAtFirst(a[1..], sep, b);
      assert [a[0]] + a[1..] == a;
    }
  }

  /** Split undoes Join when no piece holds the separator. */
  lemma {:induction false} SplitJoin(parts: seq<string>, sep: char)
    requires |parts| >= 1
    requires forall i :: 0 <= i < |parts| ==> sep !in parts[i]
    ensures Split(Join(parts, sep), sep) == parts
  {
    if |parts| == 1 {
      SplitOfFree(parts[0], sep);
    } else {
      SplitJoin(parts[1..], sep);
      SplitAtFirst(parts[0], sep, Join(parts[1..], sep));
      assert [parts[0]] + parts[1..] == parts;
    }
  }

  /** Join undoes Split: splitting loses nothing but the separators. */
  lemma {:induction false} JoinSplit(s: string, sep: char)
    ensures Join(Split(s, sep), sep) == s
  {
    if |s| > 0 {
      JoinSplit(s[1..], sep);
      var rest := Split(s[1..], sep);
      assert forall ch :: ch in s[1..] ==> ch in s;
      if s[0] == sep {
        assert ([""] + rest)[1..] == rest;
        assert [s[0]] + s[1..] == s;
      } else {
        var parts := [[s[0]] + rest[0]] + rest[1..];
        if |rest| > 1 {
          assert parts[1..] == rest[1..];
          assert Join(rest, sep) == rest[0] + [sep] + Join(rest[1..], sep);
        }
        assert [s[0]] + s[1..] == s;
      }
    }
  }
}
