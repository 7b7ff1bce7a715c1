/** The helpers of the model-predictive-control driver: extracting the JSON
    payload from a SocketIO message, converting between degrees and radians,
    evaluating a polynomial, building the design matrix of a polynomial fit,
    and unpacking the optimiser's flat trajectory into x and y lists. Doubles
    are modelled as exact reals. */
module MpcDriver {
  import opened Matrices

  datatype Option<T> = None | Some(value: T)

  // ---------------------------------------------------------------------
  // std::string searches, as the payload extraction uses them
  // ---------------------------------------------------------------------

  /** size_t arithmetic wraps modulo 2^64. */
  const SizeModulus: int := 0x1_0000_0000_0000_0000

  /** pat occurs in s starting at index k. */
  predicate OccursAt(s: string, pat: string, k: int)
  {
    0 <= k && k + |pat| <= |s| && s[k..k + |pat|] == pat
  }

  predicate Contains(s: string, pat: string)
  {
    exists k :: 0 <= k <= |s| && OccursAt(s, pat, k)
  }

  /** k is the first index of s holding c. */
  predicate FirstIndexOf(s: string, c: char, k: int)
  {
    0 <= k < |s| && s[k] == c && forall i :: 0 <= i < k ==> s[i] != c
  }

  /** k is the last index at which pat occurs in s. */
  predicate LastOccurrence(s: string, pat: string, k: int)
  {
    OccursAt(s, pat, k) && forall i :: k < i <= |s| ==> !OccursAt(s, pat, i)
  }

  function FindFrom(s: string, pat: string, from: nat): (r: Option<nat>)
    decreases |s| - from
    ensures r.Some? ==> from <= r.value && OccursAt(s, pat, r.value)
    ensures r.Some? ==> forall k :: from <= k < r.value ==> !OccursAt(s, pat, k)
    ensures r.None? ==> forall k :: from <= k ==> !OccursAt(s, pat, k)
  {
    if |s| < from + |pat| then None
    else if s[from..from + |pat|] == pat then Some(from)
    else FindFrom(s, pat, from + 1)
  }

  /** std::string::find: the first occurrence of pat, None for npos. */
  function Find(s: string, pat: string): (r: Option<nat>)
    ensures r.Some? ==> OccursAt(s, pat, r.value) && forall k :: 0 <= k < r.value ==> !OccursAt(s, pat, k)
    ensures r.None? <==> !Contains(s, pat)
  {
    FindFrom(s, pat, 0)
  }

  function FindFirstOfFrom(s: string, chars: string, from: nat): (r: Option<nat>)
    decreases |s| - from
    ensures r.Some? ==> from <= r.value < |s| && s[r.value] in chars
    ensures r.Some? ==> forall k :: from <= k < r.value ==> s[k] !in chars
    ensures r.None? ==> forall k :: from <= k < |s| ==> s[k] !in chars
  {
    if |s| <= from then None
    else if s[from] in chars then Some(from)
    else FindFirstOfFrom(s, chars, from + 1)
  }

  /** std::string::find_first_of: the first index holding any of chars. */
  function FindFirstOf(s: string, chars: string): (r: Option<nat>)
    ensures r.Some? ==> r.value < |s| && s[r.value] in chars
    ensures r.Some? ==> forall k :: 0 <= k < r.value ==> s[k] !in chars
    ensures r.None? <==> forall k :: 0 <= k < |s| ==> s[k] !in chars
  {
    FindFirstOfFrom(s, chars, 0)
  }

  function RFindBelow(s: string, pat: string, n: nat): (r: Option<nat>)
    decreases n
    ensures r.Some? ==> r.value < n && OccursAt(s, pat, r.value)
    ensures r.Some? ==> forall k :: r.value < k < n ==> !OccursAt(s, pat, k)
    ensures r.None? ==> forall k :: 0 <= k < n ==> !OccursAt(s, pat, k)
  {
    if n == 0 then None
    else if OccursAt(s, pat, n - 1) then Some(n - 1)
    else RFindBelow(s, pat, n - 1)
  }

  /** std::string::rfind: the last occurrence of pat, None for npos. */
  function RFind(s: string, pat: string): (r: Option<nat>)
    ensures r.Some? ==> LastOccurrence(s, pat, r.value)
    ensures r.None? <==> !Contains(s, pat)
  {
    RFindBelow(s, pat, |s| + 1)
  }

  /** std::string::substr: at most count characters from pos on. */
  function Substr(s: string, pos: nat, count: nat): (r: string)
    requires pos <= |s|
    ensures |r| == if count < |s| - pos then count else |s| - pos
    ensures forall i :: 0 <= i < |r| ==> r[i] == s[pos + i]
  {
    if count < |s| - pos then s[pos..pos + count] else s[pos..]
  }

  /** The JSON payload of a SocketIO event, or "" when there is none: empty
      when the message holds "null"; otherwise the slice from the first '['
      of length b2 - b1 + 2 in size_t, b2 being where the last "}]" starts. */
  function HasData(s: string): (r: string)
    requires |s| < SizeModulus
    ensures r != "" ==> !Contains(s, "null") && Contains(s, "}]") && r[0] == '['
  {
    var foundNull := Find(s, "null");
    var b1 := FindFirstOf(s, "[");
    var b2 := RFind(s, "}]");
    if foundNull.Some? then ""
    else if b1.Some? && b2.Some? then
      Substr(s, b1.value, PayloadLength(b1.value, b2.value))
    else ""
  }

  /** b2 - b1 + 2 evaluated in size_t. */
  function PayloadLength(b1: nat, b2: nat): nat
  {
    (b2 - b1 + 2) % SizeModulus
  }

  /** The three cases of the size_t length: exact when the "}]" is at or after
      the '[', zero when it ends right at the '[', wrapped past 2^64 otherwise
      (it can never start just before the '[', which is not a ']'). */
  lemma PayloadLengthCases(b1: nat, b2: nat)
    requires b1 < SizeModulus && b2 + 2 < SizeModulus
    ensures b1 <= b2 ==> PayloadLength(b1, b2) == b2 - b1 + 2
    ensures b2 + 2 == b1 ==> PayloadLength(b1, b2) == 0
    ensures b2 + 2 < b1 ==> PayloadLength(b1, b2) == SizeModulus + b2 - b1 + 2
  {
  }

  /** Any "null" in the message, wherever the brackets are, yields "";
      so does a message without '[' or without "}]". */
  lemma HasDataEmptyCases(s: string)
    requires |s| < SizeModulus
    ensures Contains(s, "null") ==> HasData(s) == ""
    ensures (forall k :: 0 <= k < |s| ==> s[k] != '[') ==> HasData(s) == ""
    ensures !Contains(s, "}]") ==> HasData(s) == ""
  {
  }

  /** When the last "}]" starts at or after the first '[', the payload is the
      slice from that '[' through that "}]". */
  lemma HasDataSlice(s: string, b1: nat, b2: nat)
    requires |s| < SizeModulus && !Contains(s, "null")
    requires FirstIndexOf(s, '[', b1) && LastOccurrence(s, "}]", b2) && b1 <= b2
    ensures HasData(s) == s[b1..b2 + 2]
    ensures HasData(s)[0] == '[' && HasData(s)[|HasData(s)| - 2..] == "}]"
  {
    HasDataTakesSubstr(s, b1, b2);
    PayloadLengthCases(b1, b2);
    SubstrWithin(s, b1, b2 - b1 + 2);
    var r := s[b1..b2 + 2];
    assert r[0] == s[b1];
    assert r[|r| - 2..] == s[b2..b2 + 2];
  }

  lemma SubstrWithin(s: string, pos: nat, count: nat)
    requires pos + count <= |s|
    ensures Substr(s, pos, count) == s[pos..pos + count]
  {
  }

  /** When the last "}]" starts before the first '[', the size_t length
      b2 - b1 + 2 wraps: it is zero when "}]" ends right at the '[', and
      otherwise so large that the whole tail from the '[' is taken. */
  lemma HasDataWrapped(s: string, b1: nat, b2: nat)
    requires |s| < SizeModulus && !Contains(s, "null")
    requires FirstIndexOf(s, '[', b1) && LastOccurrence(s, "}]", b2) && b2 < b1
    ensures HasData(s) == if b2 + 2 == b1 then "" else s[b1..]
  {
    HasDataTakesSubstr(s, b1, b2);
    assert s[b2 + 1] == ']' by {
      assert s[b2..b2 + 2] == "}]";
    }
    if b2 + 2 == b1 {
      SubstrOfWrappedLength(s, b1, b2, 0);
    } else {
      SubstrOfWrappedLength(s, b1, b2, |s| - b1);
    }
  }

  /** The substr HasData takes when the "}]" lies before the '[': empty when
      the size_t length is zero, the whole tail from the '[' otherwise. */
  lemma SubstrOfWrappedLength(s: string, b1: nat, b2: nat, len: nat)
    requires |s| < SizeModulus && b2 + 2 <= b1 < |s|
    requires len == if b2 + 2 == b1 then 0 else |s| - b1
    ensures Substr(s, b1, PayloadLength(b1, b2)) == s[b1..b1 + len]
  {
    PayloadLengthCases(b1, b2);
  }

  /** Past the "null" test, HasData is the substr from the first '[' of the
      size_t length b2 - b1 + 2. */
  lemma HasDataTakesSubstr(s: string, b1: nat, b2: nat)
    requires |s| < SizeModulus && !Contains(s, "null")
    requires FirstIndexOf(s, '[', b1) && LastOccurrence(s, "}]", b2)
    ensures HasData(s) == Substr(s, b1, PayloadLength(b1, b2))
  {
    BracketsFound(s, b1, b2);
    assert Find(s, "null").None?;
  }

  /** The searches HasData runs find exactly b1 and b2. */
  lemma BracketsFound(s: string, b1: nat, b2: nat)
    requires FirstIndexOf(s, '[', b1) && LastOccurrence(s, "}]", b2)
    ensures FindFirstOf(s, "[") == Some(b1)
    ensures RFind(s, "}]") == Some(b2)
  {
    assert s[b1] in "[";
    assert Contains(s, "}]");
  }

  // ---------------------------------------------------------------------
  // Angle conversions
  // ---------------------------------------------------------------------

  /** M_PI, to the digits the C library writes it with. */
  const Pi: real := 3.14159265358979323846

  function Deg2Rad(x: real): (r: real)
    ensures r * 180.0 == x * Pi
  {
    x * Pi / 180.0
  }

  function Rad2Deg(x: real): (r: real)
    ensures r * Pi == x * 180.0
  {
    x * 180.0 / Pi
  }

  /** The two conversions undo each other, and half a turn is pi radians. */
  lemma AngleConversionsRoundTrip(x: real)
    ensures Rad2Deg(Deg2Rad(x)) == x && Deg2Rad(Rad2Deg(x)) == x
    ensures Deg2Rad(180.0) == Pi && Rad2Deg(Pi) == 180.0
  {
    var d := Deg2Rad(x);
    var g := Rad2Deg(x);
    assert Rad2Deg(d) * Pi == d * 180.0 == x * Pi;
    assert Deg2Rad(g) * 180.0 == g * Pi == x * 180.0;
  }

  // ---------------------------------------------------------------------
  // Polynomials
  // ---------------------------------------------------------------------

  /** x to the n-th power (std::pow at a whole exponent). */
  function Pow(x: real, n: nat): real
  {
    if n == 0 then 1.0 else Pow(x, n - 1) * x
  }

  /** The sum of c[i] * x^i, added up from the lowest power as polyeval does. */
  function Poly(c: seq<real>, x: real): real
    decreases |c|
  {
    if |c| == 0 then 0.0 else Poly(c[..|c| - 1], x) + c[|c| - 1] * Pow(x, |c| - 1)
  }

  /** At x = 0 only the constant coefficient is left; the cross-track error
      is computed this way. The empty polynomial is zero everywhere. */
  lemma {:induction false} PolyAtZero(c: seq<real>, x: real)
    ensures |c| >= 1 ==> Poly(c, 0.0) == c[0]
    ensures |c| == 0 ==> Poly(c, x) == 0.0
    decreases |c|
  {
    if |c| >= 2 {
      PolyAtZero(c[..|c| - 1], x);
      assert Pow(0.0, |c| - 1) == 0.0;
      assert c[|c| - 1] * Pow(0.0, |c| - 1) == 0.0;
      assert c[..|c| - 1][0] == c[0];
    } else if |c| == 1 {
      assert c[..0] == [];
    }
  }

  /** polyeval: accumulates coeffs[i] * pow(x, i) over i. */
  method PolyEval(coeffs: seq<real>, x: real) returns (result: real)
    ensures result == Poly(coeffs, x)
  {
    result := 0.0;
    for i := 0 to |coeffs|
      invariant result == Poly(coeffs[..i], x)
    {
      assert coeffs[..i + 1][..i] == coeffs[..i];
      result := result + coeffs[i] * Pow(x, i);
    }
    assert coeffs[..|coeffs|] == coeffs;
  }

  /** The powers 1, x, ..., x^(n-1): one row of the design matrix. */
  function Powers(x: real, n: nat): (r: Vector)
    ensures |r| == n && forall i :: 0 <= i < n ==> r[i] == Pow(x, i)
  {
    seq(n, i requires 0 <= i < n => Pow(x, i))
  }

  /** The Vandermonde matrix of a fit of the given order to samples xs. */
  function DesignMatrix(xs: seq<real>, order: nat): (A: Matrix)
    ensures IsMatrix(A, |xs|, order + 1)
    ensures forall j, i :: 0 <= j < |xs| && 0 <= i <= order ==> A[j][i] == Pow(xs[j], i)
  {
    seq(|xs|, j requires 0 <= j < |xs| => Powers(xs[j], order + 1))
  }

  /** A row of powers times the coefficients evaluates the polynomial. */
  lemma {:induction false} PowersDot(x: real, c: seq<real>)
    ensures Dot(Powers(x, |c|), c) == Poly(c, x)
    decreases |c|
  {
    var n := |c|;
    if n > 0 {
      var row := Powers(x, n);
      assert row[..n - 1] == Powers(x, n - 1);
      PowersDot(x, c[..n - 1]);
      assert row[n - 1] * c[n - 1] == c[n - 1] * Pow(x, n - 1);
    }
  }

  /** The design matrix times a coefficient vector of the fit's order lists
      the polynomial's values at the samples: solving A c = y in the least-
      squares sense is fitting the polynomial to the points. */
  lemma DesignMatrixEvaluates(xs: seq<real>, c: seq<real>)
    requires |c| >= 1
    ensures |MatVec(DesignMatrix(xs, |c| - 1), c)| == |xs|
    ensures forall j :: 0 <= j < |xs| ==> MatVec(DesignMatrix(xs, |c| - 1), c)[j] == Poly(c, xs[j])
  {
    var A := DesignMatrix(xs, |c| - 1);
    forall j | 0 <= j < |xs|
      ensures MatVec(A, c)[j] == Poly(c, xs[j])
    {
      assert A[j] == Powers(xs[j], |c|);
      PowersDot(xs[j], c);
    }
  }

  /** The design-matrix fill of polyfit: column 0 set to ones, then each
      entry the one to its left times the row's sample. */
  method PolyfitDesignMatrix(xvals: seq<real>, yvals: seq<real>, order: int) returns (A: array2<real>)
    requires |xvals| == |yvals|
    requires 1 <= order <= |xvals| - 1
    ensures fresh(A) && A.Length0 == |xvals| && A.Length1 == order + 1
    ensures forall j, i :: 0 <= j < |xvals| && 0 <= i <= order ==> A[j, i] == DesignMatrix(xvals, order)[j][i]
  {
    A := new real[|xvals|, order + 1];
    for i := 0 to |xvals|
      invariant forall k :: 0 <= k < i ==> A[k, 0] == 1.0
    {
      A[i, 0] := 1.0;
    }
    for j := 0 to |xvals|
      invariant forall k, i :: 0 <= k < j && 0 <= i <= order ==> A[k, i] == Pow(xvals[k], i)
      invariant forall k :: j <= k < |xvals| ==> A[k, 0] == 1.0
    {
      for i := 0 to order
        invariant forall k, i' :: 0 <= k < j && 0 <= i' <= order ==> A[k, i'] == Pow(xvals[k], i')
        invariant forall k :: j < k < |xvals| ==> A[k, 0] == 1.0
        invariant forall i' :: 0 <= i' <= i ==> A[j, i'] == Pow(xvals[j], i')
      {
        var left := A[j, i];
        var next := left * xvals[j];
        assert next == Pow(xvals[j], i + 1);
        A[j, i + 1] := next;
      }
    }
  }


  // ---------------------------------------------------------------------
  // The predicted trajectory
  // ---------------------------------------------------------------------

  /** The flat list a[0], b[0], a[1], b[1], ... */
  function Interleave(a: seq<real>, b: seq<real>): (r: seq<real>)
    requires |a| == |b|
    ensures |r| == 2 * |a|
    decreases |a|
  {
    if |a| == 0 then [] else [a[0], b[0]] + Interleave(a[1..], b[1..])
  }

  /** The optimiser's solution holds the actuations followed by the points
      x1, y1, x2, y2, ...; the lists start with the car's own position. */
  method TrajectoryPoints(state: seq<real>, solution: seq<real>) returns (xs: seq<real>, ys: seq<real>)
    requires |state| >= 2
    requires |solution| % 2 == 0
    ensures |xs| == |ys| == if |solution| == 0 then 1 else |solution| / 2
    ensures xs[0] == state[0] && ys[0] == state[1]
    ensures forall k :: 1 <= k < |xs| ==> xs[k] == solution[2 * k] && ys[k] == solution[2 * k + 1]
    ensures |solution| >= 2 ==> Interleave(xs[1..], ys[1..]) == solution[2..]
  {
    xs := [state[0]];
    ys := [state[1]];
    var i := 2;
    while i < |solution|
      invariant |xs| == |ys| && i == 2 * |xs|
      invariant i <= |solution| || (|solution| < 2 && |xs| == 1)
      invariant xs[0] == state[0] && ys[0] == state[1]
      invariant forall k :: 1 <= k < |xs| ==> xs[k] == solution[2 * k] && ys[k] == solution[2 * k + 1]
    {
      xs := xs + [solution[i]];
      ys := ys + [solution[i + 1]];
      i := i + 2;
    }
    if |solution| >= 2 {
      var flat := Interleave(xs[1..], ys[1..]);
      forall p | 0 <= p < |flat|
        ensures flat[p] == solution[2..][p]
      {
        InterleaveAt(xs[1..], ys[1..], p / 2);
      }
    }
  }

  lemma {:induction false} InterleaveAt(a: seq<real>, b: seq<real>, k: nat)
    requires |a| == |b| && k < |a|
    ensures Interleave(a, b)[2 * k] == a[k] && Interleave(a, b)[2 * k + 1] == b[k]
    decreases k
  {
    if k > 0 {
      InterleaveAt(a[1..], b[1..], k - 1);
    }
  }
}
