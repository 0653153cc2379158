/** Go's `strings.Split` for a one-character separator, the only string
    operation the connection-string parser relies on, together with its
    inverse `Join`. */
module GoStrings {

  /** Number of occurrences of `c` in `s`. */
  function Count(s: string, c: char): nat {
    if |s| == 0 then 0
    else (if s[0] == c then 1 else 0) + Count(s[1..], c)
  }

  /** Concatenation of `parts` with `sep` between neighbours
      (`strings.Join` with a one-character separator). */
  function Join(parts: seq<string>, sep: char): string {
    if |parts| == 0 then ""
    else if |parts| == 1 then parts[0]
    else parts[0] + [sep] + Join(parts[1..], sep)
  }

  /** `strings.Split(s, sep)`: the maximal `sep`-free pieces of `s`, in
      order. There is always at least one piece, so `Split("", sep) == [""]`,
      and there is one piece more than there are separators. */
  function Split(s: string, sep: char): (parts: seq<string>)
    ensures |parts| == Count(s, sep) + 1
    ensures forall i :: 0 <= i < |parts| ==> sep !in parts[i]
  {
    if |s| == 0 then [""]
    else
      var rest := Split(s[1..], sep);
      if s[0] == sep then [""] + rest
      else [[s[0]] + rest[0]] + rest[1..]
  }

  /** A string without the separator is a single piece. */
  lemma {:induction false} SplitNoSeparator(s: string, sep: char)
    requires sep !in s
    ensures Split(s, sep) == [s]
  {
    if |s| > 0 {
      assert sep !in s[1..];
      SplitNoSeparator(s[1..], sep);
      assert [s[0]] + s[1..] == s;
    }
  }

  /** The first piece is everything before the first separator; the rest of
      the split is the split of what follows that separator. */
  lemma {:induction false} SplitAtFirst(head: string, sep: char, tail: string)
    requires sep !in head
    ensures Split(head + [sep] + tail, sep) == [head] + Split(tail, sep)
  {
    var s := head + [sep] + tail;
    if |head| == 0 {
      assert s == [sep] + tail;
      assert s[1..] == tail;
    } else {
      assert s[1..] == head[1..] + [sep] + tail;
      assert sep !in head[1..];
      SplitAtFirst(head[1..], sep, tail);
      assert [head[0]] + head[1..] == head;
    }
  }

  /** Joining the pieces gives back the original string. */
  lemma {:induction false} JoinSplit(s: string, sep: char)
    ensures Join(Split(s, sep), sep) == s
  {
    if |s| > 0 {
      var rest := Split(s[1..], sep);
      JoinSplit(s[1..], sep);
      if s[0] == sep {
        assert Split(s, sep) == [""] + rest;
        assert ([""] + rest)[1..] == rest;
        assert s == [sep] + s[1..];
      } else {
        var parts := Split(s, sep);
        assert parts == [[s[0]] + rest[0]] + rest[1..];
        if |rest| == 1 {
          assert s == [s[0]] + s[1..];
        } else {
          assert parts[1..] == rest[1..];
          assert Join(rest, sep) == rest[0] + [sep] + Join(rest[1..], sep);
          assert s == [s[0]] + s[1..];
        }
      }
    }
  }

  /** Splitting a join of separator-free pieces gives back the pieces. */
  lemma {:induction false} SplitJoin(parts: seq<string>, sep: char)
    requires |parts| >= 1
    requires forall i :: 0 <= i < |parts| ==> sep !in parts[i]
    ensures Split(Join(parts, sep), sep) == parts
  {
    if |parts| == 1 {
      SplitNoSeparator(parts[0], sep);
    } else {
      SplitJoin(parts[1..], sep);
      SplitAtFirst(parts[0], sep, Join(parts[1..], sep));
      assert [parts[0]] + parts[1..] == parts;
    }
  }

  /** `tail` is empty or begins a new piece. */
  predicate StartsPiece(tail: string, sep: char) {
    |tail| == 0 || tail[0] == sep
  }

  /** The pieces of a separator-free `head` followed by `tail`, when `tail`
      is empty or starts with the separator. */
  lemma {:induction false} SplitHead(head: string, sep: char, tail: string)
    requires sep !in head
    requires StartsPiece(tail, sep)
    ensures |tail| == 0 ==> Split(head + tail, sep) == [head]
    ensures |tail| > 0 ==> Split(head + tail, sep) == [head] + Split(tail[1..], sep)
  {
    if |tail| == 0 {
      assert head + tail == head;
      SplitNoSeparator(head, sep);
    } else {
      assert tail == [sep] + tail[1..];
      assert head + tail == head + [sep] + tail[1..];
      SplitAtFirst(head, sep, tail[1..]);
    }
  }

  /** The first two pieces of `head + [sep] + second + tail`, when neither
      `head` nor `second` holds the separator and `tail` starts a new piece
      or is empty. */
  lemma {:induction false} FirstTwoPieces(head: string, sep: char, second: string, tail: string)
    requires sep !in head && sep !in second && StartsPiece(tail, sep)
    ensures var parts := Split(head + [sep] + second + tail, sep);
            |parts| >= 2 && parts[0] == head && parts[1] == second
  {
    assert head + [sep] + second + tail == head + [sep] + (second + tail);
    SplitAtFirst(head, sep, second + tail);
    SplitHead(second, sep, tail);
  }
}
