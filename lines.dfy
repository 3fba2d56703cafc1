/** Python's `sep.join(parts)` and `s.split("\n")`, and how the bulk wire
    format, newline-free lines joined by "\n" plus a final "\n", splits back
    into its lines. */
module Lines {

  /** Python's `sep.join(parts)`. */
  function Join(parts: seq<string>, sep: string): (r: string)
    ensures |parts| == 0 ==> r == ""
    ensures |parts| > 0 ==> parts[0] <= r
  {
    if |parts| == 0 then ""
    else if |parts| == 1 then parts[0]
    else parts[0] + sep + Join(parts[1..], sep)
  }

  /** Python's `s.split("\n")`: the maximal newline-free pieces of `s`,
      including the empty ones before, between and after newlines. */
  function Split(s: string): (r: seq<string>)
    ensures |r| > 0
    ensures forall i :: 0 <= i < |r| ==> '\n' !in r[i]
  {
    if |s| == 0 then [""]
    else if s[0] == '\n' then [""] + Split(s[1..])
    else
      var rest := Split(s[1..]);
      [[s[0]] + rest[0]] + rest[1..]
  }

  ghost predicate NewlineFree(parts: seq<string>)
  {
    forall i :: 0 <= i < |parts| ==> '\n' !in parts[i]
  }

  /** A newline-free string is a single piece. */
  lemma {:induction false} SplitOneLine(a: string)
    requires '\n' !in a
    ensures Split(a) == [a]
  {
    if |a| > 0 {
      SplitOneLine(a[1..]);
      assert a[0] != '\n';
      assert [a[0]] + a[1..] == a;
    }
  }

  /** Splitting peels off a leading newline-free line. */
  lemma {:induction false} SplitFirstLine(a: string, rest: string)
    requires '\n' !in a
    ensures Split(a + "\n" + rest) == [a] + Split(rest)
  {
    if |a| == 0 {
      assert a + "\n" + rest == "\n" + rest;
      assert ("\n" + rest)[1..] == rest;
    } else {
      SplitFirstLine(a[1..], rest);
      assert (a + "\n" + rest)[1..] == a[1..] + "\n" + rest;
      assert [a[0]] + a[1..] == a;
    }
  }

  /** Splitting undoes joining with "\n" when no part holds a newline. */
  lemma {:induction false} SplitJoin(parts: seq<string>)
    requires |parts| > 0 && NewlineFree(parts)
    ensures Split(Join(parts, "\n")) == parts
  {
    if |parts| == 1 {
      SplitOneLine(parts[0]);
    } else {
      SplitJoin(parts[1..]);
      SplitFirstLine(parts[0], Join(parts[1..], "\n"));
    }
  }

  /** Joining undoes splitting: no character of `s` is lost or added. */
  lemma {:induction false} JoinSplit(s: string)
    ensures Join(Split(s), "\n") == s
  {
    if |s| > 0 {
      JoinSplit(s[1..]);
      var rest := Split(s[1..]);
      if s[0] == '\n' {
        assert Split(s) == [""] + rest;
        assert ([""] + rest)[1..] == rest;
        assert s == "\n" + s[1..];
      } else {
        var head := [s[0]] + rest[0];
        assert Split(s) == [head] + rest[1..];
        if |rest| == 1 {
          assert s == [s[0]] + s[1..];
        } else {
          assert ([head] + rest[1..])[1..] == rest[1..];
          assert s == [s[0]] + s[1..];
        }
      }
    }
  }

  /** Joining one more part appends the separator and that part. */
  lemma {:induction false} JoinSnoc(parts: seq<string>, last: string, sep: string)
    requires |parts| > 0
    ensures Join(parts + [last], sep) == Join(parts, sep) + sep + last
  {
    if |parts| > 1 {
      JoinSnoc(parts[1..], last, sep);
      assert (parts + [last])[1..] == parts[1..] + [last];
    }
  }

  /** The bulk wire shape: N >= 1 newline-free lines joined by "\n" plus a
      final "\n" split into exactly those lines and one empty piece. */
  lemma {:induction false} SplitTerminated(parts: seq<string>)
    requires |parts| > 0 && NewlineFree(parts)
    ensures Split(Join(parts, "\n") + "\n") == parts + [""]
  {
    var all := parts + [""];
    JoinSnoc(parts, "", "\n");
    assert Join(parts, "\n") + "\n" + "" == Join(parts, "\n") + "\n";
    assert forall i :: 0 <= i < |all| ==> all[i] == if i < |parts| then parts[i] else "";
    SplitJoin(all);
  }

  /** With no lines the wire string is a lone "\n", which splits in two. */
  lemma SplitEmptyTerminated()
    ensures Split(Join([], "\n") + "\n") == ["", ""]
  {
    assert Join([], "\n") + "\n" == "\n";
    assert Split("\n") == [""] + Split("");
  }
}
