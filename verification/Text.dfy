/** Strings cut at a delimiter. One function, `Split`, specifies the three
    cutters of the repository: `Utilities::SplitString`, the server's line
    reassembly and the configuration tokeniser. */
module Text {
  import opened Words

  predicate Free(s: string, c: char) {
    forall i | 0 <= i < |s| :: s[i] != c
  }

  predicate AllFree(ts: seq<string>, c: char) {
    forall i | 0 <= i < |ts| :: Free(ts[i], c)
  }

  function Last<T>(s: seq<T>): T
    requires s != []
  {
    s[|s| - 1]
  }

  function Init<T>(s: seq<T>): seq<T>
    requires s != []
  {
    s[..|s| - 1]
  }

  lemma Regroup<T>(a: seq<T>, b: seq<T>, c: seq<T>)
    ensures a + b + c == a + (b + c)
  {
  }

  /** One more character at the front of the first piece. */
  function Grow(x: char, ps: seq<string>): seq<string>
    requires ps != []
  {
    [[x] + ps[0]] + ps[1..]
  }

  /** The pieces between delimiters; `k` delimiters give `k + 1` pieces. */
  function Split(s: string, c: char): (ps: seq<string>)
    ensures ps != []
  {
    if s == [] then [[]]
    else
      var ps := Split(s[1..], c);
      if s[0] == c then [[]] + ps else Grow(s[0], ps)
  }

  function Join(ts: seq<string>, c: char): string
    requires ts != []
  {
    if |ts| == 1 then ts[0] else ts[0] + [c] + Join(ts[1..], c)
  }

  lemma {:induction false} PiecesAreFree(s: string, c: char)
    ensures AllFree(Split(s, c), c)
  {
    if s != [] {
      PiecesAreFree(s[1..], c);
    }
  }

  lemma {:induction false} JoinSplit(s: string, c: char)
    ensures Join(Split(s, c), c) == s
  {
    if s != [] {
      var ps := Split(s[1..], c);
      JoinSplit(s[1..], c);
      if s[0] == c {
        assert ([[]] + ps)[1..] == ps;
        assert s == [c] + s[1..];
      } else {
        var qs := [[s[0]] + ps[0]] + ps[1..];
        assert qs[1..] == ps[1..];
        assert s == [s[0]] + s[1..];
      }
    }
  }

  lemma {:induction false} PiecesKeepFree(s: string, c: char, x: char)
    requires Free(s, x)
    ensures AllFree(Split(s, c), x)
  {
    if s != [] {
      PiecesKeepFree(s[1..], c, x);
    }
  }

  /** Cutting at a known first delimiter. */
  lemma {:induction false} SplitAt(t: string, rest: string, c: char)
    requires Free(t, c)
    ensures Split(t, c) == [t]
    ensures Split(t + [c] + rest, c) == [t] + Split(rest, c)
  {
    if t == [] {
      assert (t + [c] + rest)[1..] == rest;
    } else {
      SplitAt(t[1..], rest, c);
      assert (t + [c] + rest)[1..] == t[1..] + [c] + rest;
      assert [t[0]] + t[1..] == t;
    }
  }

  lemma {:induction false} SingleIffFree(s: string, c: char)
    ensures |Split(s, c)| == 1 <==> Free(s, c)
  {
    if s != [] {
      SingleIffFree(s[1..], c);
      assert Free(s, c) <==> s[0] != c && Free(s[1..], c);
    }
  }

  /** Joining and splitting are mutual inverses on delimiter-free tokens, so
      `Split` is the only way to cut a string into delimiter-free pieces. */
  lemma {:induction false} SplitJoin(ts: seq<string>, c: char)
    requires ts != []
    ensures Split(Join(ts, c), c) == ts <==> AllFree(ts, c)
  {
    PiecesAreFree(Join(ts, c), c);
    if AllFree(ts, c) {
      SplitJoinFree(ts, c);
    }
  }

  lemma {:induction false} SplitJoinFree(ts: seq<string>, c: char)
    requires ts != [] && AllFree(ts, c)
    ensures Split(Join(ts, c), c) == ts
  {
    SplitAt(ts[0], [], c);
    if |ts| > 1 {
      SplitAt(ts[0], Join(ts[1..], c), c);
      SplitJoinFree(ts[1..], c);
      assert ts == [ts[0]] + ts[1..];
    } else {
      assert ts == [ts[0]];
    }
  }

  /** The pieces of `a + b` from those of `a` and `b`: the last piece of the
      first half runs on into the first piece of the second. */
  function Glue(pa: seq<string>, pb: seq<string>): seq<string>
    requires pa != [] && pb != []
  {
    Init(pa) + [Last(pa) + pb[0]] + pb[1..]
  }

  lemma GlueCut(pa: seq<string>, pb: seq<string>)
    requires pa != [] && pb != []
    ensures Glue([[]] + pa, pb) == [[]] + Glue(pa, pb)
  {
    assert Init([[]] + pa) == [[]] + Init(pa);
  }

  lemma GlueGrow(x: char, pa: seq<string>, pb: seq<string>)
    requires pa != [] && pb != []
    ensures Glue(Grow(x, pa), pb) == Grow(x, Glue(pa, pb))
  {
    if |pa| == 1 {
      assert [x] + (pa[0] + pb[0]) == ([x] + pa[0]) + pb[0];
      assert Grow(x, pa) == [[x] + pa[0]];
    } else {
      assert Init(Grow(x, pa)) == Grow(x, Init(pa));
      assert Last(Grow(x, pa)) == Last(pa);
    }
  }

  /** Appending text only touches the last piece: what makes reassembly over
      arbitrary chunks possible. */
  lemma {:induction false} SplitConcat(a: string, b: string, c: char)
    ensures Split(a + b, c) == Glue(Split(a, c), Split(b, c))
  {
    if a == [] {
      assert a + b == b;
      assert [] + Split(b, c)[0] == Split(b, c)[0];
    } else {
      assert (a + b)[1..] == a[1..] + b;
      SplitConcat(a[1..], b, c);
      if a[0] == c {
        GlueCut(Split(a[1..], c), Split(b, c));
      } else {
        GlueGrow(a[0], Split(a[1..], c), Split(b, c));
      }
    }
  }

  /** `std::string::find(c, from)`; `None` is `npos`. */
  method Find(s: string, c: char, from: nat) returns (pos: Option<nat>)
    requires from <= |s|
    ensures pos.Some? ==> from <= pos.value < |s| && s[pos.value] == c && Free(s[from..pos.value], c)
    ensures pos.None? ==> Free(s[from..], c)
  {
    var i := from;
    while i < |s|
      invariant from <= i <= |s|
      invariant Free(s[from..i], c)
    {
      if s[i] == c {
        return Some(i);
      }
      assert s[from..i + 1] == s[from..i] + [s[i]];
      i := i + 1;
    }
    assert s[from..i] == s[from..];
    return None;
  }

  lemma Shift<T>(a: seq<T>, x: T, b: seq<T>)
    ensures a + ([x] + b) == (a + [x]) + b
  {
  }

  lemma NoCut(s: string, c: char)
    requires Free(s, c)
    ensures Split(s, c) == [s]
  {
    SplitAt(s, [], c);
  }

  lemma CutToken(s: string, from: nat, pos: nat, c: char)
    requires from <= pos < |s| && s[pos] == c && Free(s[from..pos], c)
    ensures Split(s[from..], c) == [s[from..pos]] + Split(s[pos + 1..], c)
  {
    SplitAt(s[from..pos], s[pos + 1..], c);
    assert s[from..] == s[from..pos] + [c] + s[pos + 1..];
  }

  /** `Utilities::SplitString`. */
  method SplitString(s: string, delimiter: char) returns (tokens: seq<string>)
    ensures tokens == Split(s, delimiter)
    ensures Join(tokens, delimiter) == s && AllFree(tokens, delimiter)
  {
    tokens := [];
    var oldPos := 0;
    var pos := Find(s, delimiter, oldPos);
    while pos.Some?
      invariant oldPos <= |s|
      invariant pos.Some? ==> oldPos <= pos.value < |s| && s[pos.value] == delimiter &&
                              Free(s[oldPos..pos.value], delimiter)
      invariant pos.None? ==> Free(s[oldPos..], delimiter)
      invariant Split(s, delimiter) == tokens + Split(s[oldPos..], delimiter)
      decreases |s| - oldPos, pos.Some?
    {
      var token := s[oldPos..pos.value];
      CutToken(s, oldPos, pos.value, delimiter);
      Shift(tokens, token, Split(s[pos.value + 1..], delimiter));
      tokens := tokens + [token];
      oldPos := pos.value + 1;
      pos := Find(s, delimiter, oldPos);
    }
    NoCut(s[oldPos..], delimiter);
    tokens := tokens + [s[oldPos..]];
    JoinSplit(s, delimiter);
    PiecesAreFree(s, delimiter);
  }
}
