/** The channel key of a one-to-one conversation: the two participant ids,
    sorted the way JavaScript's `Array.prototype.sort` sorts strings, joined
    with a dash. */
module ChannelKey {

  /** `a` sorts no later than `b` under the default sort order: character by
      character, a proper prefix first. */
  predicate LexLe(a: string, b: string)
    decreases |a|
  {
    |a| == 0 || (|b| > 0 && (a[0] < b[0] || (a[0] == b[0] && LexLe(a[1..], b[1..]))))
  }

  /** Any two strings are comparable. */
  lemma {:induction false} LexLeTotal(a: string, b: string)
    ensures LexLe(a, b) || LexLe(b, a)
    decreases |a|
  {
    if |a| > 0 && |b| > 0 && a[0] == b[0] {
      LexLeTotal(a[1..], b[1..]);
    }
  }

  /** Two strings that sort no later than each other are equal. */
  lemma {:induction false} LexLeAntisymmetric(a: string, b: string)
    requires LexLe(a, b) && LexLe(b, a)
    ensures a == b
    decreases |a|
  {
    if |a| > 0 {
      LexLeAntisymmetric(a[1..], b[1..]);
      assert a == [a[0]] + a[1..];
      assert b == [b[0]] + b[1..];
    }
  }

  /** `[me, target].sort().join("-")`: whichever id sorts first is written
      in front. */
  function ChannelId(me: string, target: string): (r: string)
    ensures r == me + "-" + target || r == target + "-" + me
    ensures LexLe(me, target) ==> r == me + "-" + target
    ensures LexLe(target, me) ==> r == target + "-" + me
  {
    if LexLe(me, target) then
      if LexLe(target, me) then LexLeAntisymmetric(me, target); me + "-" + target
      else me + "-" + target
    else
      target + "-" + me
  }

  /** The key does not depend on which participant opens the chat. */
  lemma ChannelIdSymmetric(a: string, b: string)
    ensures ChannelId(a, b) == ChannelId(b, a)
  {
    LexLeTotal(a, b);
  }

  /** The documented example: users "u1" and "u2" share "u1-u2". */
  lemma ChannelIdExample()
    ensures ChannelId("u1", "u2") == "u1-u2"
    ensures ChannelId("u2", "u1") == "u1-u2"
  {
    assert LexLe("1", "2");
    assert LexLe("u1", "u2");
  }

  /** Position of the first dash in `x`, or `|x|` when there is none. */
  function FirstDash(x: string): (k: nat)
    ensures k <= |x|
  {
    if |x| == 0 || x[0] == '-' then 0 else 1 + FirstDash(x[1..])
  }

  /** A dash-free prefix followed by a dash ends exactly at the first dash. */
  lemma {:induction false} FirstDashAfterDashFree(p: string, q: string)
    requires '-' !in p
    ensures FirstDash(p + "-" + q) == |p|
  {
    if |p| > 0 {
      assert (p + "-" + q)[1..] == p[1..] + "-" + q;
      FirstDashAfterDashFree(p[1..], q);
    }
  }

  /** A string split at its first dash: the part before the dash is fixed. */
  lemma SplitAtFirstDash(p: string, q: string, p': string, q': string)
    requires '-' !in p && '-' !in p'
    requires p + "-" + q == p' + "-" + q'
    ensures p == p' && q == q'
  {
    var x := p + "-" + q;
    FirstDashAfterDashFree(p, q);
    FirstDashAfterDashFree(p', q');
    assert p == x[..|p|] == p';
    assert q == x[|p| + 1..] == q';
  }

  /** For dash-free ids the key identifies the unordered pair of participants. */
  lemma ChannelIdDeterminesPairWithoutDash(a: string, b: string, c: string, d: string)
    requires '-' !in a && '-' !in b && '-' !in c && '-' !in d
    requires ChannelId(a, b) == ChannelId(c, d)
    ensures multiset{a, b} == multiset{c, d}
  {
    LexLeTotal(a, b);
    LexLeTotal(c, d);
    var lo := if LexLe(a, b) then a else b;
    var hi := if LexLe(a, b) then b else a;
    var lo' := if LexLe(c, d) then c else d;
    var hi' := if LexLe(c, d) then d else c;
    assert ChannelId(a, b) == lo + "-" + hi;
    assert ChannelId(c, d) == lo' + "-" + hi';
    SplitAtFirstDash(lo, hi, lo', hi');
  }

  /** Ids that contain a dash can collide: two different pairs share a key. */
  lemma ChannelIdCollidesWithDash()
    ensures ChannelId("a-b", "c") == "a-b-c"
    ensures ChannelId("a", "b-c") == "a-b-c"
    ensures multiset{"a-b", "c"} != multiset{"a", "b-c"}
  {
    assert LexLe("a-b", "c");
    assert LexLe("a", "b-c");
    assert "a" !in multiset{"a-b", "c"};
  }
}
