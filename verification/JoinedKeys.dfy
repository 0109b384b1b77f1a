/** Texts made of four parts joined by a separator: when such a text gives its parts away. */
module JoinedKeys {

  datatype Parts = Parts(a: string, b: string, c: string, d: string) {
    predicate Free(sep: char) { sep !in a && sep !in b && sep !in c && sep !in d }
  }

  function Joined(sep: char, p: Parts): string {
    p.a + [sep] + p.b + [sep] + p.c + [sep] + p.d
  }

  function Count(sep: char, s: string): nat {
    if s == "" then 0 else Count(sep, s[..|s| - 1]) + if s[|s| - 1] == sep then 1 else 0
  }

  lemma {:induction false} CountAdds(sep: char, s: string, t: string)
    ensures Count(sep, s + t) == Count(sep, s) + Count(sep, t)
  {
    if t == "" {
      assert s + t == s;
    } else {
      assert (s + t)[..|s + t| - 1] == s + t[..|t| - 1];
      CountAdds(sep, s, t[..|t| - 1]);
    }
  }

  lemma {:induction false} CountZeroIff(sep: char, s: string)
    ensures Count(sep, s) == 0 <==> sep !in s
  {
    if s != "" {
      CountZeroIff(sep, s[..|s| - 1]);
      assert s == s[..|s| - 1] + [s[|s| - 1]];
    }
  }

  lemma {:induction false} CountOfJoined(sep: char, p: Parts)
    ensures Count(sep, Joined(sep, p)) == 3 + Count(sep, p.a) + Count(sep, p.b) + Count(sep, p.c) + Count(sep, p.d)
  {
    assert [sep][..0] == "" && Count(sep, [sep]) == 1;
    CountAdds(sep, p.a, [sep]);
    CountAdds(sep, p.a + [sep], p.b);
    CountAdds(sep, p.a + [sep] + p.b, [sep]);
    CountAdds(sep, p.a + [sep] + p.b + [sep], p.c);
    CountAdds(sep, p.a + [sep] + p.b + [sep] + p.c, [sep]);
    CountAdds(sep, p.a + [sep] + p.b + [sep] + p.c + [sep], p.d);
  }

  lemma {:induction false} FreeIff(sep: char, p: Parts)
    ensures p.Free(sep) <==> Count(sep, Joined(sep, p)) == 3
  {
    CountOfJoined(sep, p);
    CountZeroIff(sep, p.a);
    CountZeroIff(sep, p.b);
    CountZeroIff(sep, p.c);
    CountZeroIff(sep, p.d);
  }

  lemma {:induction false} SplitAtFirst(sep: char, a: string, x: string, b: string, y: string)
    requires sep !in a && sep !in b && a + [sep] + x == b + [sep] + y
    ensures a == b && x == y
  {
    var s := a + [sep] + x;
    assert s[|a|] == sep && s[|b|] == sep;
    assert forall i | 0 <= i < |a| :: s[i] == a[i] && a[i] in a;
    assert forall i | 0 <= i < |b| :: s[i] == b[i] && b[i] in b;
    assert |a| == |b|;
    assert a == s[..|a|] == b;
    assert x == s[|a| + 1..] == y;
  }

  lemma {:induction false} FreePartsEqual(sep: char, p: Parts, q: Parts)
    requires p.Free(sep) && q.Free(sep) && Joined(sep, p) == Joined(sep, q)
    ensures p == q
  {
    var p2, q2 := p.c + [sep] + p.d, q.c + [sep] + q.d;
    var p1, q1 := p.b + [sep] + p2, q.b + [sep] + q2;
    assert Joined(sep, p) == p.a + [sep] + p1 && Joined(sep, q) == q.a + [sep] + q1;
    SplitAtFirst(sep, p.a, p1, q.a, q1);
    SplitAtFirst(sep, p.b, p2, q.b, q2);
    SplitAtFirst(sep, p.c, p.d, q.c, q.d);
  }

  lemma {:induction false} SplitAt(sep: char, s: string) returns (x: string, y: string)
    requires sep in s
    ensures s == x + [sep] + y
  {
    var i :| 0 <= i < |s| && s[i] == sep;
    x, y := s[..i], s[i + 1..];
  }

  /** Moving a separator from inside a part to between two parts gives the same text. */
  lemma {:induction false} Collides(sep: char, p: Parts) returns (q: Parts)
    requires !p.Free(sep)
    ensures Joined(sep, q) == Joined(sep, p) && q != p
  {
    if sep in p.a {
      var x, y := SplitAt(sep, p.a);
      q := Parts(x, y, p.b, p.c + [sep] + p.d);
      assert |q.a| < |p.a|;
    } else if sep in p.b {
      var x, y := SplitAt(sep, p.b);
      q := Parts(p.a + [sep] + x, y, p.c, p.d);
      assert |q.a| > |p.a|;
    } else if sep in p.c {
      var x, y := SplitAt(sep, p.c);
      q := Parts(p.a + [sep] + p.b, x, y, p.d);
      assert |q.a| > |p.a|;
    } else {
      var x, y := SplitAt(sep, p.d);
      q := Parts(p.a + [sep] + p.b, p.c, x, y);
      assert |q.a| > |p.a|;
    }
  }

  /** No other parts join to the same text exactly when no part holds the separator. */
  lemma {:induction false} PrivateIff(sep: char, p: Parts)
    ensures (forall q :: Joined(sep, q) == Joined(sep, p) ==> q == p) <==> p.Free(sep)
  {
    FreeIff(sep, p);
    if p.Free(sep) {
      forall q | Joined(sep, q) == Joined(sep, p) ensures q == p {
        FreeIff(sep, q);
        FreePartsEqual(sep, q, p);
      }
    } else {
      var q := Collides(sep, p);
    }
  }
}
