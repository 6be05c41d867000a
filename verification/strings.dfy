/**
 `String.prototype.split` on a one-character separator and its inverse
 `Array.prototype.join`.
 */
module Strings {

  /** `parts.join(sep)`: the parts with one separator between neighbours. */
  function Join(parts: seq<string>, sep: char): (r: string)
    ensures |parts| >= 1 ==> parts[0] <= r
    ensures |parts| >= 2 ==> |parts[0]| < |r| && r[|parts[0]|] == sep
    ensures |parts| <= 1 ==> r == if parts == [] then "" else parts[0]
  {
    if |parts| == 0 then ""
    else if |parts| == 1 then parts[0]
    else parts[0] + [sep] + Join(parts[1..], sep)
  }

  /** `s.split(sep)`: the maximal separator-free pieces of `s`, in order. */
  function Split(s: string, sep: char): (r: seq<string>)
    ensures |r| >= 1
    ensures forall i | 0 <= i < |r| :: sep !in r[i]
    ensures Join(r, sep) == s
    decreases |s|
  {
    if |s| == 0 then [""]
    else
      var rest := Split(s[1..], sep);
      if s[0] == sep then
        assert Join([""] + rest, sep) == [sep] + Join(rest, sep) by {
          assert ([""] + rest)[1..] == rest;
        }
        [""] + rest
      else
        var head := [s[0]] + rest[0];
        assert ([head] + rest[1..])[1..] == rest[1..];
        assert s == [s[0]] + s[1..];
        [head] + rest[1..]
  }

  /** A separator-free string is split into itself alone. */
  lemma {:induction false} SplitWithoutSeparator(s: string, sep: char)
    requires sep !in s
    ensures Split(s, sep) == [s]
    decreases |s|
  {
    if |s| > 0 {
      assert sep !in s[1..];
      SplitWithoutSeparator(s[1..], sep);
      assert s == [s[0]] + s[1..];
    }
  }

  /** Splitting at the first separator peels off the piece before it. */
  lemma {:induction false} SplitAtFirst(head: string, sep: char, tail: string)
    requires sep !in head
    ensures Split(head + [sep] + tail, sep) == [head] + Split(tail, sep)
    decreases |head|
  {
    var s := head + [sep] + tail;
    if |head| == 0 {
      assert s[1..] == tail;
    } else {
      assert s[1..] == head[1..] + [sep] + tail;
      assert sep !in head[1..];
      SplitAtFirst(head[1..], sep, tail);
      assert [head[0]] + head[1..] == head;
    }
  }

  /** Split undoes Join for separator-free, non-empty lists of parts. */
  lemma {:induction false} SplitJoin(parts: seq<string>, sep: char)
    requires |parts| >= 1
    requires forall i | 0 <= i < |parts| :: sep !in parts[i]
    ensures Split(Join(parts, sep), sep) == parts
    decreases |parts|
  {
    if |parts| == 1 {
      SplitWithoutSeparator(parts[0], sep);
    } else {
      SplitAtFirst(parts[0], sep, Join(parts[1..], sep));
      SplitJoin(parts[1..], sep);
      assert [parts[0]] + parts[1..] == parts;
    }
  }
}
