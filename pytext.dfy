/** The ASCII part of Python's `str.strip()`, `str.lower()` and the
    substring test `w in s`, on strings as sequences of characters. */
module PyText {

  /** The ASCII characters for which Python's `str.isspace()` holds:
      tab, line feed, vertical tab, form feed, carriage return, the four
      separators 0x1C-0x1F, and space. */
  predicate IsSpace(c: char) {
    (9 <= c as int <= 13) || (28 <= c as int <= 32)
  }

  predicate AllSpace(s: string) {
    forall i :: 0 <= i < |s| ==> IsSpace(s[i])
  }

  /** No whitespace at either end. */
  predicate Trimmed(s: string) {
    |s| > 0 ==> !IsSpace(s[0]) && !IsSpace(s[|s| - 1])
  }

  /** `s.lstrip()`: the longest suffix of `s` that does not start with
      whitespace. */
  function StripLeft(s: string): string
  {
    if |s| > 0 && IsSpace(s[0]) then StripLeft(s[1..]) else s
  }

  /** What `StripLeft` removes is a run of whitespace at the front. */
  lemma {:induction false} StripLeftSuffix(s: string)
    ensures var r := StripLeft(s);
      && |r| <= |s| && r == s[|s| - |r|..]
      && AllSpace(s[..|s| - |r|])
      && (|r| > 0 ==> !IsSpace(r[0]))
  {
    if |s| > 0 && IsSpace(s[0]) {
      StripLeftSuffix(s[1..]);
      var r := StripLeft(s);
      var p := s[..|s| - |r|];
      forall i | 0 <= i < |p| ensures IsSpace(p[i]) {
        if i > 0 {
          assert p[i] == s[1..][..|s| - 1 - |r|][i - 1];
        }
      }
    }
  }

  /** `s.rstrip()`: the longest prefix of `s` that does not end with
      whitespace. */
  function StripRight(s: string): string
  {
    if |s| > 0 && IsSpace(s[|s| - 1]) then StripRight(s[..|s| - 1]) else s
  }

  /** What `StripRight` removes is a run of whitespace at the back. */
  lemma {:induction false} StripRightPrefix(s: string)
    ensures var r := StripRight(s);
      && |r| <= |s| && r == s[..|r|]
      && AllSpace(s[|r|..])
      && (|r| > 0 ==> !IsSpace(r[|r| - 1]))
  {
    if |s| > 0 && IsSpace(s[|s| - 1]) {
      StripRightPrefix(s[..|s| - 1]);
      var r := StripRight(s);
      var q := s[|r|..];
      forall i | 0 <= i < |q| ensures IsSpace(q[i]) {
        if i < |q| - 1 {
          assert q[i] == s[..|s| - 1][|r|..][i];
        }
      }
    }
  }

  /** `s.strip()`: surrounding whitespace removed from both ends. */
  function Strip(s: string): (r: string)
    ensures Trimmed(r)
    ensures |r| <= |s|
  {
    StripLeftSuffix(s);
    StripRightPrefix(StripLeft(s));
    StripRight(StripLeft(s))
  }

  /** The whitespace `Strip` removes is exactly a prefix and a suffix of
      `s`, and what is left is trimmed: `s == s[..i] + Strip(s) + s[j..]`. */
  lemma StripSplit(s: string) returns (i: nat, j: nat)
    ensures i <= j <= |s|
    ensures AllSpace(s[..i]) && AllSpace(s[j..])
    ensures Strip(s) == s[i..j]
    ensures Trimmed(Strip(s))
  {
    var l := StripLeft(s);
    var r := StripRight(l);
    StripLeftSuffix(s);
    StripRightPrefix(l);
    i := |s| - |l|;
    j := i + |r|;
    assert s[i..j] == l[..|r|];
    assert s[j..] == l[|r|..];
    if |r| > 0 {
      assert r[0] == l[0];
    }
  }

  /** Stripping leading whitespace is unaffected by more leading
      whitespace. */
  lemma {:induction false} StripLeftPadded(w: string, t: string)
    requires AllSpace(w)
    ensures StripLeft(w + t) == StripLeft(t)
  {
    if |w| > 0 {
      assert (w + t)[0] == w[0] && IsSpace(w[0]);
      assert (w + t)[1..] == w[1..] + t;
      assert StripLeft(w + t) == StripLeft(w[1..] + t);
      assert AllSpace(w[1..]) by {
        forall i | 0 <= i < |w[1..]| ensures IsSpace(w[1..][i]) {
          assert w[1..][i] == w[i + 1];
        }
      }
      StripLeftPadded(w[1..], t);
    } else {
      assert w + t == t;
    }
  }

  /** Stripping trailing whitespace is unaffected by more trailing
      whitespace. */
  lemma {:induction false} StripRightPadded(t: string, w: string)
    requires AllSpace(w)
    ensures StripRight(t + w) == StripRight(t)
  {
    if |w| > 0 {
      assert (t + w)[|t + w| - 1] == w[|w| - 1] && IsSpace(w[|w| - 1]);
      assert (t + w)[..|t + w| - 1] == t + w[..|w| - 1];
      var v := w[..|w| - 1];
      assert AllSpace(v) by {
        forall i | 0 <= i < |v| ensures IsSpace(v[i]) {
          assert v[i] == w[i];
        }
      }
      StripRightPadded(t, v);
    } else {
      assert t + w == t;
    }
  }

  /** Leading-whitespace removal passes through text appended on the
      right, as long as `t` itself is not all whitespace. */
  lemma {:induction false} StripLeftAppend(t: string, u: string)
    requires !AllSpace(t)
    ensures StripLeft(t + u) == StripLeft(t) + u
  {
    if IsSpace(t[0]) {
      assert (t + u)[1..] == t[1..] + u;
      StripLeftAppend(t[1..], u);
    }
  }

  /** Whitespace around a string does not change what `strip()` returns. */
  lemma StripPadded(w1: string, t: string, w2: string)
    requires AllSpace(w1) && AllSpace(w2)
    ensures Strip(w1 + t + w2) == Strip(t)
  {
    assert w1 + t + w2 == w1 + (t + w2);
    StripLeftPadded(w1, t + w2);
    if AllSpace(t) {
      StripLeftPadded(t + w2, []);
      assert t + w2 + [] == t + w2;
      StripLeftPadded(t, []);
      assert t + [] == t;
    } else {
      StripLeftAppend(t, w2);
      StripRightPadded(StripLeft(t), w2);
    }
  }

  /** A string with no whitespace at its ends is its own strip. */
  lemma StripTrimmed(s: string)
    requires Trimmed(s)
    ensures Strip(s) == s
  {
  }

  /** `c.lower()` on an ASCII character: only 'A'..'Z' change. */
  function LowerChar(c: char): (r: char)
    ensures IsSpace(r) == IsSpace(c)
    ensures 'A' <= r <= 'Z' ==> false
  {
    if 'A' <= c <= 'Z' then (c as int + 32) as char else c
  }

  /** `s.lower()`, character by character. */
  function Lower(s: string): (r: string)
    ensures |r| == |s|
    ensures forall i :: 0 <= i < |s| ==> r[i] == LowerChar(s[i])
  {
    if |s| == 0 then [] else [LowerChar(s[0])] + Lower(s[1..])
  }

  /** Lower-casing twice is lower-casing once. */
  lemma LowerIdempotent(s: string)
    ensures Lower(Lower(s)) == Lower(s)
  {
  }

  /** Lower-casing maps whitespace to whitespace. */
  lemma LowerAllSpace(s: string)
    requires AllSpace(s)
    ensures AllSpace(Lower(s))
  {
  }

  /** Lower-casing distributes over concatenation. */
  lemma {:induction false} LowerAppend(a: string, b: string)
    ensures Lower(a + b) == Lower(a) + Lower(b)
  {
    var l := Lower(a + b);
    assert l == Lower(a) + Lower(b) by {
      forall i | 0 <= i < |l| ensures l[i] == (Lower(a) + Lower(b))[i] {
        if i < |a| {
          assert (a + b)[i] == a[i];
        } else {
          assert (a + b)[i] == b[i - |a|];
        }
      }
    }
  }

  /** Lower-casing keeps whitespace where it is and never makes an end
      character whitespace, so it commutes with `strip()`:
      `s.strip().lower() == s.lower().strip()`. */
  lemma LowerStrip(s: string)
    ensures Lower(Strip(s)) == Strip(Lower(s))
  {
    var i, j := StripSplit(s);
    var head, mid, tail := s[..i], s[i..j], s[j..];
    assert s == head + mid + tail;
    LowerAppend(head + mid, tail);
    LowerAppend(head, mid);
    LowerAllSpace(head);
    LowerAllSpace(tail);
    LowerTrimmed(mid);
    calc {
      Strip(Lower(s));
      Strip(Lower(head) + Lower(mid) + Lower(tail));
      { StripPadded(Lower(head), Lower(mid), Lower(tail)); }
      Strip(Lower(mid));
      { StripTrimmed(Lower(mid)); }
      Lower(mid);
    }
  }

  /** Lower-casing keeps a trimmed string trimmed. */
  lemma LowerTrimmed(m: string)
    requires Trimmed(m)
    ensures Trimmed(Lower(m))
  {
  }

  /** Python's `w in s`, as a left-to-right search. */
  function Contains(s: string, w: string): bool
    decreases |s|
  {
    if |w| > |s| then false
    else if s[..|w|] == w then true
    else Contains(s[1..], w)
  }

  /** `w` occurs in `s` starting at offset `k`. */
  predicate OccursAt(s: string, w: string, k: int) {
    0 <= k <= |s| - |w| && s[k..k + |w|] == w
  }

  /** The search finds `w` exactly when `w` occurs at some offset. */
  lemma {:induction false} ContainsIff(s: string, w: string)
    ensures Contains(s, w) <==> exists k :: OccursAt(s, w, k)
    decreases |s|
  {
    if |w| > |s| {
    } else if s[..|w|] == w {
      assert OccursAt(s, w, 0);
    } else {
      ContainsIff(s[1..], w);
      if Contains(s, w) {
        var k :| OccursAt(s[1..], w, k);
        assert s[1..][k..k + |w|] == s[k + 1..k + 1 + |w|];
        assert OccursAt(s, w, k + 1);
      } else {
        forall k | OccursAt(s, w, k) ensures false {
          if k > 0 {
            assert s[1..][k - 1..k - 1 + |w|] == s[k..k + |w|];
            assert OccursAt(s[1..], w, k - 1);
          }
        }
      }
    }
  }
}
