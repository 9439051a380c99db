/**
 * The two ray buffers of HeadMouseTracker, `origins` and `directions`: Python deques
 * created with maxlen = filter_length, appended once per frame with a face, and
 * averaged component-wise.
 */
module RayHistory {
  import opened Wrappers

  /** A point or direction of the face model, in camera coordinates. */
  datatype Vec3 = Vec3(x: real, y: real, z: real)

  /** The last n elements of s, or all of s when it has at most n. */
  function LastN<T>(s: seq<T>, n: nat): (r: seq<T>)
    ensures |r| == if |s| <= n then |s| else n
  {
    if |s| <= n then s else s[|s| - n..]
  }

  /** LastN keeps the end of s: the elements it returns are the final ones of s, in order. */
  lemma LastNIsSuffix<T>(s: seq<T>, n: nat)
    ensures LastN(s, n) == s[|s| - |LastN(s, n)|..]
    ensures forall i :: 0 <= i < |LastN(s, n)| ==> LastN(s, n)[i] == s[|s| - |LastN(s, n)| + i]
  {
  }

  /** `append` on a deque with the given maxlen: the item is added at the right end and
    * the deque is then trimmed from the left back to maxlen, so a full deque loses its
    * oldest item and a deque with maxlen 0 stays empty. */
  function Append<T>(buf: seq<T>, maxLen: nat, v: T): (r: seq<T>)
    requires |buf| <= maxLen
    ensures |r| <= maxLen
    ensures maxLen == 0 ==> r == []
    ensures |buf| < maxLen ==> r == buf + [v]
    ensures 0 < |buf| == maxLen ==> r == buf[1..] + [v]
  {
    LastN(buf + [v], maxLen)
  }

  /** The deque after appending every element of vs in order. */
  function AppendAll<T>(buf: seq<T>, maxLen: nat, vs: seq<T>): (r: seq<T>)
    requires |buf| <= maxLen
    ensures |r| <= maxLen
    decreases |vs|
  {
    if vs == [] then buf else AppendAll(Append(buf, maxLen, vs[0]), maxLen, vs[1..])
  }

  /** Trimming before more items arrive keeps the same suffix as trimming once at the end. */
  lemma LastNAppend<T>(s: seq<T>, t: seq<T>, n: nat)
    ensures LastN(LastN(s, n) + t, n) == LastN(s + t, n)
  {
    var u := LastN(s, n);
    var k := |LastN(s + t, n)|;
    assert |LastN(u + t, n)| == k;
    forall i | 0 <= i < k ensures LastN(u + t, n)[i] == LastN(s + t, n)[i] {
      var j := |u + t| - k + i;
      var j' := |s + t| - k + i;
      assert LastN(u + t, n)[i] == (u + t)[j];
      assert LastN(s + t, n)[i] == (s + t)[j'];
      if j < |u| {
        assert (u + t)[j] == u[j] == s[|s| - |u| + j];
      } else {
        assert (u + t)[j] == t[j - |u|];
      }
    }
  }

  /** The ring-buffer law: a deque with maxlen N holds the last N of everything appended
    * to it, oldest first. */
  lemma {:induction false} AppendAllKeepsLast<T>(buf: seq<T>, maxLen: nat, vs: seq<T>)
    requires |buf| <= maxLen
    ensures AppendAll(buf, maxLen, vs) == LastN(buf + vs, maxLen)
    decreases |vs|
  {
    if vs == [] {
      assert buf + vs == buf;
    } else {
      var next := Append(buf, maxLen, vs[0]);
      AppendAllKeepsLast(next, maxLen, vs[1..]);
      LastNAppend(buf + [vs[0]], vs[1..], maxLen);
      assert buf + [vs[0]] + vs[1..] == buf + vs;
    }
  }

  /** A deque created empty and fed n items holds exactly the most recent min(n, N) of
    * them, in order (the size is LastN's, the suffix LastNIsSuffix's). */
  lemma FromEmptyKeepsRecent<T>(maxLen: nat, vs: seq<T>)
    ensures AppendAll([], maxLen, vs) == LastN(vs, maxLen)
  {
    var empty: seq<T> := [];
    AppendAllKeepsLast(empty, maxLen, vs);
    assert empty + vs == vs;
  }

  function Add(a: Vec3, b: Vec3): Vec3 {
    Vec3(a.x + b.x, a.y + b.y, a.z + b.z)
  }

  function Scale(a: Vec3, k: real): Vec3 {
    Vec3(k * a.x, k * a.y, k * a.z)
  }

  const ZERO: Vec3 := Vec3(0.0, 0.0, 0.0)

  /** The component-wise sum of the buffer. */
  function Sum(s: seq<Vec3>): Vec3
    decreases |s|
  {
    if s == [] then ZERO else Add(Sum(s[..|s| - 1]), s[|s| - 1])
  }

  /** `np.mean(buffer, axis=0)`; None for an empty buffer, where numpy yields no usable vector. */
  function Mean(s: seq<Vec3>): (r: Option<Vec3>)
    ensures r.Some? <==> s != []
  {
    if s == [] then None else Some(Scale(Sum(s), 1.0 / (|s| as real)))
  }

  /** The sum of n copies of v is n times v. */
  lemma {:induction false} SumConstant(s: seq<Vec3>, v: Vec3)
    requires forall i :: 0 <= i < |s| ==> s[i] == v
    ensures Sum(s) == Scale(v, |s| as real)
    decreases |s|
  {
    if s != [] {
      var init := s[..|s| - 1];
      assert forall i :: 0 <= i < |init| ==> init[i] == s[i];
      SumConstant(init, v);
    }
  }

  /** A buffer holding a single repeated ray averages to that ray. */
  lemma MeanConstant(s: seq<Vec3>, v: Vec3)
    requires s != [] && forall i :: 0 <= i < |s| ==> s[i] == v
    ensures Mean(s) == Some(v)
  {
    SumConstant(s, v);
    var n := |s| as real;
    Cancel(n, v.x);
    Cancel(n, v.y);
    Cancel(n, v.z);
    var m := Scale(Sum(s), 1.0 / n);
    assert m.x == v.x && m.y == v.y && m.z == v.z;
  }

  lemma Cancel(n: real, a: real)
    requires n > 0.0
    ensures (1.0 / n) * (n * a) == a
  {
    var k := 1.0 / n;
    assert k * n == 1.0;
    assert k * (n * a) == (k * n) * a;
  }

  /** When every buffered direction points to the left (x < 0) the mean does too: the
    * sign tests on the averaged direction agree with the samples. */
  lemma {:induction false} SumNegativeX(s: seq<Vec3>)
    requires s != [] && forall i :: 0 <= i < |s| ==> s[i].x < 0.0
    ensures Sum(s).x < 0.0
    decreases |s|
  {
    var init := s[..|s| - 1];
    if init != [] {
      assert forall i :: 0 <= i < |init| ==> init[i] == s[i];
      SumNegativeX(init);
    }
  }

  lemma MeanNegativeX(s: seq<Vec3>)
    requires s != [] && forall i :: 0 <= i < |s| ==> s[i].x < 0.0
    ensures Mean(s).Some? && Mean(s).value.x < 0.0
  {
    SumNegativeX(s);
    var k := 1.0 / (|s| as real);
    assert k > 0.0;
    var sx := Sum(s).x;
    assert k * sx < 0.0 by { assert k * (-sx) > 0.0; }
  }
}
