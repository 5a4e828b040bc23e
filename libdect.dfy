/** The public interface of libdect (libdect/libdect.cpp): the device list,
    the device settings recorded by dect_initDevice, the choice of CPU solver
    variant, the routing of dect_process with its fallback from OpenCL to the
    CPU, the inverse mixing step used to check results, and the version
    string. Whether the library was built with OpenCL support is the
    hasOpenCl field of the library. */
module Libdect {
  import opened Mixing
  import opened Output
  import opened OpenCl
  import CpuTemplate
  import Simul

  /** The name of device 1. */
  const SimulLabel := "CPU using simultaneous equations (fast but inaccurate)"

  /** The release tag appended to the version. */
  const PrettyVersion := "v0.3"

  /** The size of the buffer the version string is built in. */
  const VersionBufSize := 128

  /** The number of source characters the version keeps. */
  const VersionChars := 7

  /** The floating precision of a CPU solver instantiation. */
  datatype Precision = Single | Double

  /** One of the eight CPU solver instantiations. */
  datatype Variant = Variant(precision: Precision, otype: OutputType)

  /** The instantiation selected by the recorded settings; none for an output
      type code outside the enumeration. */
  function CpuVariant(useSingleFp: int, otype: int): (v: Option<Variant>)
    ensures v.Some? <==> DecodeOutputType(otype).Some?
    ensures v.Some? ==> (v.value.precision == Single <==> useSingleFp != 0) && Code(v.value.otype) == otype
  {
    match DecodeOutputType(otype)
    case None => None
    case Some(t) => Some(Variant(if useSingleFp != 0 then Single else Double, t))
  }

  /** Exactly one instantiation answers each setting: two settings select the
      same instantiation if and only if they agree on the precision flag and
      on the output type. */
  lemma CpuVariantExact(s1: int, o1: int, s2: int, o2: int)
    requires CpuVariant(s1, o1).Some? && CpuVariant(s2, o2).Some?
    ensures CpuVariant(s1, o1) == CpuVariant(s2, o2) <==> (s1 != 0 <==> s2 != 0) && o1 == o2
  {
    if CpuVariant(s1, o1) == CpuVariant(s2, o2) {
      assert Code(CpuVariant(s1, o1).value.otype) == o1;
      assert Code(CpuVariant(s2, o2).value.otype) == o2;
    }
  }

  /** isspace of the C locale. */
  predicate IsSpace(c: char) {
    c == ' ' || 9 <= c as int <= 13
  }

  /** A string without its leading white space. */
  function SkipSpace(s: string): (t: string)
    ensures |t| <= |s| && t == s[|s| - |t|..]
    ensures |t| == 0 || !IsSpace(t[0])
    ensures forall j :: 0 <= j < |s| - |t| ==> IsSpace(s[j])
  {
    if |s| == 0 then s
    else if IsSpace(s[0]) then SkipSpace(s[1..])
    else s
  }

  /** Dropping a prefix of white space does not change what SkipSpace keeps. */
  lemma {:induction false} SkipSpaceFrom(s: string, k: int)
    requires 0 <= k <= |s|
    requires forall j :: 0 <= j < k ==> IsSpace(s[j])
    ensures SkipSpace(s) == SkipSpace(s[k..])
  {
    if k > 0 {
      assert IsSpace(s[0]);
      assert s[1..][k - 1..] == s[k..];
      SkipSpaceFrom(s[1..], k - 1);
    }
  }

  /** The characters of the revision string the version keeps: at most
      seven, from its first character that is not white space on. */
  function Kept(git: string): (k: string)
    ensures |k| <= VersionChars && k <= SkipSpace(git)
    ensures |k| < VersionChars ==> k == SkipSpace(git)
  {
    var t := SkipSpace(git);
    if |t| < VersionChars then t else t[..VersionChars]
  }

  /** The version string: the kept characters, a blank and the release tag.
      It is at most seven characters, a blank and the tag long, so it always
      fits the buffer it is built in. */
  function Version(git: string): (v: string)
    ensures |v| <= VersionChars + 1 + |PrettyVersion|
    ensures |v| < VersionBufSize
  {
    Kept(git) + " " + PrettyVersion
  }

  /** The value image A and image B would measure for the stored bytes of
      one voxel: the bytes read as fractions of 255 and mixed. */
  function ReconPair(m: Coeffs, xb: int, yb: int, zb: int): Pair {
    Predict(m, Fractions(xb as real / 255.0, yb as real / 255.0, zb as real / 255.0))
  }

  /** A pure material-1 voxel reconstitutes to that material's coefficients. */
  lemma ReconPure(m: Coeffs)
    ensures ReconPair(m, 255, 0, 0) == Pair(m.alphaA, m.alphaB)
    ensures ReconPair(m, 0, 255, 0) == Pair(m.betaA, m.betaB)
    ensures ReconPair(m, 0, 0, 255) == Pair(m.gammaA, m.gammaB)
  {
  }

  function Abs(x: real): real {
    if x < 0.0 then -x else x
  }

  /** q is v scaled to a byte and rounded down. */
  predicate Rounds(v: real, q: int) {
    q as real <= v * 255.0 < q as real + 1.0
  }

  /** The solvers' byte conversion rounds down. */
  lemma ByteRounds(v: real)
    ensures Rounds(v, Byte(v))
  {
  }

  /** w lies less than 1/255 below v. */
  predicate Below(v: real, w: real) {
    0.0 <= v - w < 1.0 / 255.0
  }

  lemma ScaledBound(c: real, d: real, e: real)
    requires 0.0 <= d <= e
    ensures -(Abs(c) * e) <= c * d <= Abs(c) * e
  {
    if c < 0.0 {
      assert c * d >= c * e;
    } else {
      assert c * d <= c * e;
    }
  }

  lemma TermError(c: real, v: real, w: real)
    requires Below(v, w)
    ensures -(Abs(c) / 255.0) <= c * w - c * v <= Abs(c) / 255.0
  {
    ScaledBound(c, v - w, 1.0 / 255.0);
    assert c * w - c * v == -(c * (v - w));
  }

  lemma SumBounds(u1: real, u2: real, u3: real, e1: real, e2: real, e3: real, t: real)
    requires -e1 <= u1 <= e1 && -e2 <= u2 <= e2 && -e3 <= u3 <= e3 && t == u1 + u2 + u3
    ensures -(e1 + e2 + e3) <= t <= e1 + e2 + e3
  {
  }

  /** One image: the three rounding errors, weighted by the coefficients. */
  lemma MixError(p: real, q: real, r: real, f: Fractions, g: Fractions)
    requires Below(f.a, g.a) && Below(f.b, g.b) && Below(f.c, g.c)
    ensures var e := (Abs(p) + Abs(q) + Abs(r)) / 255.0;
      -e <= (p * g.a + q * g.b + r * g.c) - (p * f.a + q * f.b + r * f.c) <= e
  {
    TermError(p, f.a, g.a);
    TermError(q, f.b, g.b);
    TermError(r, f.c, g.c);
    SumBounds(p * g.a - p * f.a, q * g.b - q * f.b, r * g.c - r * f.c,
              Abs(p) / 255.0, Abs(q) / 255.0, Abs(r) / 255.0,
              (p * g.a + q * g.b + r * g.c) - (p * f.a + q * f.b + r * f.c));
  }

  lemma ErrorA(m: Coeffs, f: Fractions, g: Fractions)
    requires Below(f.a, g.a) && Below(f.b, g.b) && Below(f.c, g.c)
    ensures var e := (Abs(m.alphaA) + Abs(m.betaA) + Abs(m.gammaA)) / 255.0;
      -e <= Predict(m, g).inA - Predict(m, f).inA <= e
  {
    MixError(m.alphaA, m.betaA, m.gammaA, f, g);
  }

  lemma ErrorB(m: Coeffs, f: Fractions, g: Fractions)
    requires Below(f.a, g.a) && Below(f.b, g.b) && Below(f.c, g.c)
    ensures var e := (Abs(m.alphaB) + Abs(m.betaB) + Abs(m.gammaB)) / 255.0;
      -e <= Predict(m, g).inB - Predict(m, f).inB <= e
  {
    MixError(m.alphaB, m.betaB, m.gammaB, f, g);
  }

  /** Reconstituting the bytes a solver stored for fractions f (each the
      fraction scaled to 255 and rounded down) gives back the prediction of f
      up to the rounding of the bytes: in each image the error is at most
      the sum of the coefficients' magnitudes over 255. */
  lemma ReconstituteApprox(m: Coeffs, f: Fractions, xb: int, yb: int, zb: int)
    requires Rounds(f.a, xb) && Rounds(f.b, yb) && Rounds(f.c, zb)
    ensures var e := (Abs(m.alphaA) + Abs(m.betaA) + Abs(m.gammaA)) / 255.0;
      -e <= ReconPair(m, xb, yb, zb).inA - Predict(m, f).inA <= e
    ensures var e := (Abs(m.alphaB) + Abs(m.betaB) + Abs(m.gammaB)) / 255.0;
      -e <= ReconPair(m, xb, yb, zb).inB - Predict(m, f).inB <= e
  {
    var g := Fractions(xb as real / 255.0, yb as real / 255.0, zb as real / 255.0);
    assert Below(f.a, g.a) && Below(f.b, g.b) && Below(f.c, g.c);
    ErrorA(m, f, g);
    ErrorB(m, f, g);
  }

  /** What dect_reconstitute stores is the reconstituted value truncated
      toward zero, which moves it by less than one more unit: the stored
      integers lie within the byte rounding error plus one of the
      prediction of f. */
  lemma ReconstituteStoredApprox(m: Coeffs, f: Fractions, xb: int, yb: int, zb: int)
    requires Rounds(f.a, xb) && Rounds(f.b, yb) && Rounds(f.c, zb)
    ensures var e := (Abs(m.alphaA) + Abs(m.betaA) + Abs(m.gammaA)) / 255.0;
      -(e + 1.0) < Trunc(ReconPair(m, xb, yb, zb).inA) as real - Predict(m, f).inA < e + 1.0
    ensures var e := (Abs(m.alphaB) + Abs(m.betaB) + Abs(m.gammaB)) / 255.0;
      -(e + 1.0) < Trunc(ReconPair(m, xb, yb, zb).inB) as real - Predict(m, f).inB < e + 1.0
  {
    ReconstituteApprox(m, f, xb, yb, zb);
  }

  /** Every reconstituted value below n fits an int16. */
  predicate ReconFits(m: Coeffs, x: seq<int>, y: seq<int>, z: seq<int>, n: int)
    requires n <= |x| && n <= |y| && n <= |z|
  {
    forall k :: 0 <= k < n ==>
      InInt16(Trunc(ReconPair(m, x[k], y[k], z[k]).inA)) && InInt16(Trunc(ReconPair(m, x[k], y[k], z[k]).inB))
  }

  /** The values stored for voxels 0 .. n - 1 in image A (channel 0) or
      image B (channel 1). */
  function ReconValues(m: Coeffs, x: seq<int>, y: seq<int>, z: seq<int>, n: nat, channel: int): seq<int>
    requires n <= |x| && n <= |y| && n <= |z|
  {
    seq(n, k requires 0 <= k < n =>
      var p := ReconPair(m, x[k], y[k], z[k]); Trunc(if channel == 0 then p.inA else p.inB))
  }

  /** The value of voxel idx for both images stored at its output index. */
  method ReconVoxel(x: seq<int>, y: seq<int>, z: seq<int>, m: Coeffs, a: array<int>, b: array<int>,
                    idx: int, adjust: int)
    requires 0 <= idx < |x| && idx < |y| && idx < |z| && a != b
    requires 0 <= Slot(idx, adjust) < a.Length && Slot(idx, adjust) < b.Length
    modifies a, b
    ensures a[..] == old(a[..])[Slot(idx, adjust) := Trunc(ReconPair(m, x[idx], y[idx], z[idx]).inA)]
    ensures b[..] == old(b[..])[Slot(idx, adjust) := Trunc(ReconPair(m, x[idx], y[idx], z[idx]).inB)]
  {
    var curx := x[idx] as real / 255.0;
    var cury := y[idx] as real / 255.0;
    var curz := z[idx] as real / 255.0;
    var cura := m.alphaA * curx + m.betaA * cury + m.gammaA * curz;
    var curb := m.alphaB * curx + m.betaB * cury + m.gammaB * curz;
    var outIdx := idx;
    if adjust != 0 {
      outIdx := adjust - idx;
    }
    assert outIdx == Slot(idx, adjust);
    assert cura == ReconPair(m, x[idx], y[idx], z[idx]).inA;
    assert curb == ReconPair(m, x[idx], y[idx], z[idx]).inB;
    a[outIdx] := Trunc(cura);
    b[outIdx] := Trunc(curb);
  }

  /** dect_reconstitute: rebuilds images A and B from stored u8 fractions,
      voxel by voxel, at the (possibly mirrored) output index, and returns 0. */
  method Reconstitute(x: seq<int>, y: seq<int>, z: seq<int>, m: Coeffs, a: array<int>, b: array<int>,
                      outSize: nat, adjust: int) returns (r: int)
    requires outSize <= |x| && outSize <= |y| && outSize <= |z| && a != b
    requires SlotsFit(outSize, adjust, a.Length) && SlotsFit(outSize, adjust, b.Length)
    requires ReconFits(m, x, y, z, outSize)
    modifies a, b
    ensures r == 0
    ensures Placed(a[..], old(a[..]), ReconValues(m, x, y, z, outSize, 0), outSize, adjust)
    ensures Placed(b[..], old(b[..]), ReconValues(m, x, y, z, outSize, 1), outSize, adjust)
  {
    var idx := 0;
    while idx < outSize
      invariant 0 <= idx <= outSize
      invariant Placed(a[..], old(a[..]), ReconValues(m, x, y, z, outSize, 0), idx, adjust)
      invariant Placed(b[..], old(b[..]), ReconValues(m, x, y, z, outSize, 1), idx, adjust)
    {
      ghost var a1, b1 := a[..], b[..];
      ReconVoxel(x, y, z, m, a, b, idx, adjust);
      PlacedStep(a[..], a1, old(a[..]), ReconValues(m, x, y, z, outSize, 0), idx, adjust);
      PlacedStep(b[..], b1, old(b[..]), ReconValues(m, x, y, z, outSize, 1), idx, adjust);
      idx := idx + 1;
    }
    r := 0;
  }

  /** The index of the first character of s that is not white space, or -1
      when there is none. */
  method FirstNonSpace(s: string) returns (start: int)
    ensures -1 <= start < |s|
    ensures start < 0 ==> SkipSpace(s) == []
    ensures start >= 0 ==> SkipSpace(s) == s[start..]
  {
    start := -1;
    var i := 0;
    while i < |s|
      invariant 0 <= i <= |s|
      invariant forall j :: 0 <= j < i ==> IsSpace(s[j])
    {
      if !IsSpace(s[i]) {
        start := i;
        break;
      }
      i := i + 1;
    }
    SkipSpaceFrom(s, i);
  }

  /** Copies at most seven characters of git from start on into buf. */
  method CopyKept(git: string, start: int, buf: array<char>) returns (len: int)
    requires 0 <= start < |git| && VersionChars <= buf.Length
    modifies buf
    ensures 0 <= len <= VersionChars && len <= |git| - start
    ensures buf[..len] == git[start..][..len]
    ensures len < VersionChars ==> len == |git| - start
  {
    len := 0;
    while len < VersionChars && start + len < |git|
      invariant 0 <= len <= VersionChars && start + len <= |git|
      invariant buf[..len] == git[start..][..len]
    {
      buf[len] := git[start + len];
      len := len + 1;
    }
  }

  /** Appends the characters of tail to the len characters held by buf. */
  method Append(buf: array<char>, len: int, tail: string) returns (len': int)
    requires 0 <= len && len + |tail| <= buf.Length
    modifies buf
    ensures len' == len + |tail|
    ensures buf[..len'] == old(buf[..len]) + tail
  {
    var i := 0;
    while i < |tail|
      invariant 0 <= i <= |tail|
      invariant buf[..len + i] == old(buf[..len]) + tail[..i]
    {
      buf[len + i] := tail[i];
      i := i + 1;
    }
    len' := len + i;
  }

  /** dect_getVersion: finds the first character of the revision string that
      is not white space, copies at most seven characters from there into a
      fresh buffer, and appends a blank and the release tag. */
  method GetVersion(git: string) returns (v: string)
    ensures v == Version(git)
  {
    var start := FirstNonSpace(git);
    var buf := new char[VersionBufSize];
    var len := 0;
    if start >= 0 {
      len := CopyKept(git, start, buf);
    }
    ghost var kept := buf[..len];
    assert kept == Kept(git);
    len := Append(buf, len, " ");
    len := Append(buf, len, PrettyVersion);
    v := buf[..len];
    assert v == kept + " " + PrettyVersion;
  }

  /** The state of libdect: the settings recorded by dect_initDevice, the
      build's OpenCL support and the OpenCL back end. */
  class Library {
    var useSingleFp: int
    var otype: int
    const hasOpenCl: bool
    const cl: Runtime

    /** The state at load time: double precision, u8 output. */
    constructor (hasOpenCl: bool, cl: Runtime)
      ensures this.hasOpenCl == hasOpenCl && this.cl == cl
      ensures useSingleFp == 0 && otype == Code(U8)
    {
      this.hasOpenCl := hasOpenCl;
      this.cl := cl;
      useSingleFp := 0;
      otype := Code(U8);
    }

    /** The two CPU devices and one device per OpenCL platform. */
    function DeviceCount(): (n: int)
      ensures n >= 2
      ensures n - 2 == (if hasOpenCl then |cl.platforms| else 0)
    {
      2 + (if hasOpenCl then |cl.platforms| else 0)
    }

    /** The name of device idx: the two CPU devices first, then the OpenCL
        platforms; a name exists exactly for the indices below the count. */
    function DeviceName(idx: int): (r: Option<string>)
      ensures idx == 0 ==> r == Some("CPU")
      ensures idx == 1 ==> r == Some(SimulLabel)
      ensures idx != 0 && idx != 1 && hasOpenCl ==> r == OpenCl.DeviceName(cl.platforms, idx - 2)
      ensures r.Some? <==> 0 <= idx < DeviceCount()
    {
      if idx == 0 then Some("CPU")
      else if idx == 1 then Some(SimulLabel)
      else if hasOpenCl then OpenCl.DeviceName(cl.platforms, idx - 2)
      else None
    }

    /** dect_initDevice: initialises the OpenCL back end for an OpenCL device
        (ignoring its result), records the precision flag and output type,
        and returns 0. o is what the OpenCL runtime answers. */
    method InitDevice(idx: int, enhanced: int, useSingleFp: int, otype: int, o: InitOracle) returns (r: int)
      modifies this, cl
      ensures r == 0
      ensures this.useSingleFp == useSingleFp && this.otype == otype
      ensures idx < 2 || !hasOpenCl ==> unchanged(cl)
      ensures idx >= 2 && hasOpenCl ==>
        cl.isInit == (if InitCode(o, |cl.platforms|, idx - 2, useSingleFp, otype) == Success then 1 else 0)
      ensures idx >= 2 && hasOpenCl ==>
        cl.useDouble == (if ReachesBuild(o, |cl.platforms|, idx - 2, otype) && SingleBuilt(o, useSingleFp)
                         then 0 else old(cl.useDouble))
      ensures idx >= 2 && hasOpenCl ==>
        cl.otype == (if ReachesOtype(o, |cl.platforms|, idx - 2) then otype else old(cl.otype))
      ensures idx >= 2 && hasOpenCl ==>
        cl.kernelName == (if ReachesBuild(o, |cl.platforms|, idx - 2, otype) && BuildStatus(o, useSingleFp) == Success
                          then KernelName(enhanced) else old(cl.kernelName))
      ensures idx >= 2 && hasOpenCl && cl.isInit == 1 ==> cl.kernelName == KernelName(enhanced)
    {
      if idx >= 2 && hasOpenCl {
        var _, _ := cl.Init(idx - 2, enhanced, useSingleFp, otype, o);
      }
      this.useSingleFp := useSingleFp;
      this.otype := otype;
      r := 0;
    }

    /** The code the OpenCL back end returns for a run: -1 before a
        successful initialisation, otherwise the status of the run. */
    function OpenClResult(status: int): int
      reads cl
    {
      if cl.isInit == 0 then -1 else status
    }

    /** The device's run ends in the CPU search: device 0, or an OpenCL
        device whose run failed. */
    predicate UsesCpu(deviceId: int, status: int)
      reads cl
    {
      deviceId == 0 || (deviceId != 1 && hasOpenCl && OpenClResult(status) != Success)
    }

    /** dect_algo_cpu_iter: runs the instantiation selected by the recorded
        settings, or returns -1 for an unknown output type. The single and
        double precision instantiations compute the same values over the
        reals. */
    method CpuIter(enhanced: int, a: seq<int>, b: seq<int>, m: Coeffs,
                   x: array<real>, y: array<real>, z: array<real>, pixCount: nat, minStep: real,
                   merge: array?<int>, mr: real, adjust: int) returns (r: int)
      requires minStep > 0.0 && enhanced <= 3
      requires pixCount <= |a| && pixCount <= |b|
      requires x != y && y != z && x != z
      requires SlotsFit(pixCount, adjust, x.Length) && SlotsFit(pixCount, adjust, y.Length) && SlotsFit(pixCount, adjust, z.Length)
      requires merge != null ==>
        SlotsFit(pixCount, adjust, merge.Length) && CpuTemplate.MergeFits(a, b, pixCount, adjust, mr)
      modifies x, y, z, merge
      ensures CpuVariant(useSingleFp, otype).None? ==> r == -1 && unchanged(x, y, z)
      ensures CpuVariant(useSingleFp, otype).None? && merge != null ==> unchanged(merge)
      ensures CpuVariant(useSingleFp, otype).Some? ==> r == 0
      ensures CpuVariant(useSingleFp, otype).Some? ==> var t := CpuVariant(useSingleFp, otype).value.otype;
        Placed(x[..], old(x[..]), CpuTemplate.TemplateOutputs(m, a, b, pixCount, enhanced, minStep, t, 0), pixCount, adjust) &&
        Placed(y[..], old(y[..]), CpuTemplate.TemplateOutputs(m, a, b, pixCount, enhanced, minStep, t, 1), pixCount, adjust) &&
        Placed(z[..], old(z[..]), CpuTemplate.TemplateOutputs(m, a, b, pixCount, enhanced, minStep, t, 2), pixCount, adjust)
      ensures CpuVariant(useSingleFp, otype).Some? && merge != null ==>
        Placed(merge[..], old(merge[..]), CpuTemplate.TemplateMerges(a, b, pixCount, adjust, mr), pixCount, adjust)
    {
      var v := CpuVariant(useSingleFp, otype);
      if v.None? {
        return -1;
      }
      r := CpuTemplate.Iter(enhanced, a, b, m, x, y, z, pixCount, minStep, merge, mr, adjust, v.value.otype);
    }

    /** dect_process: device 0 runs the CPU search, device 1 the closed form
        with byte output, any other device the OpenCL back end, falling back
        once to the CPU search when that fails; a build without OpenCL
        returns -1 for those. status is what the OpenCL runtime reports for
        the run; the kernel's own writes to the images are not modelled. */
    method Process(deviceId: int, enhanced: int, a: seq<int>, b: seq<int>, m: Coeffs,
                   x: array<real>, y: array<real>, z: array<real>, pixCount: nat, minStep: real,
                   merge: array?<int>, mr: real, adjust: int, handleBytes: nat, status: int) returns (r: int)
      requires pixCount <= |a| && pixCount <= |b|
      requires x != y && y != z && x != z
      requires SlotsFit(pixCount, adjust, x.Length) && SlotsFit(pixCount, adjust, y.Length) && SlotsFit(pixCount, adjust, z.Length)
      requires merge != null ==> SlotsFit(pixCount, adjust, merge.Length)
      requires deviceId != 1 ==> minStep > 0.0 && enhanced <= 3
      requires deviceId != 1 && merge != null ==> CpuTemplate.MergeFits(a, b, pixCount, adjust, mr)
      requires deviceId == 1 ==> Simul.Solvable(m) && (merge != null ==> Simul.MergeFits(a, b, pixCount, mr))
      modifies x, y, z, merge
      ensures UsesCpu(deviceId, status) ==>
        (CpuVariant(useSingleFp, otype).None? ==> r == -1) &&
        (CpuVariant(useSingleFp, otype).Some? ==> r == 0)
      ensures UsesCpu(deviceId, status) && CpuVariant(useSingleFp, otype).Some? ==>
        var t := CpuVariant(useSingleFp, otype).value.otype;
        Placed(x[..], old(x[..]), CpuTemplate.TemplateOutputs(m, a, b, pixCount, enhanced, minStep, t, 0), pixCount, adjust) &&
        Placed(y[..], old(y[..]), CpuTemplate.TemplateOutputs(m, a, b, pixCount, enhanced, minStep, t, 1), pixCount, adjust) &&
        Placed(z[..], old(z[..]), CpuTemplate.TemplateOutputs(m, a, b, pixCount, enhanced, minStep, t, 2), pixCount, adjust) &&
        (merge != null ==>
          Placed(merge[..], old(merge[..]), CpuTemplate.TemplateMerges(a, b, pixCount, adjust, mr), pixCount, adjust))
      ensures deviceId == 1 ==> r == 0
      ensures deviceId == 1 ==>
        Placed(x[..], old(x[..]), Simul.SimulOutputs(m, a, b, pixCount, 0), pixCount, adjust) &&
        Placed(y[..], old(y[..]), Simul.SimulOutputs(m, a, b, pixCount, 1), pixCount, adjust) &&
        Placed(z[..], old(z[..]), Simul.SimulOutputs(m, a, b, pixCount, 2), pixCount, adjust) &&
        (merge != null ==> Placed(merge[..], old(merge[..]), Simul.SimulMerges(a, b, pixCount, mr), pixCount, adjust))
      ensures deviceId != 0 && deviceId != 1 && hasOpenCl && OpenClResult(status) == Success ==> r == Success
      ensures deviceId != 0 && deviceId != 1 && !hasOpenCl ==> r == -1 && unchanged(x, y, z)
      ensures deviceId != 0 && deviceId != 1 && !hasOpenCl && merge != null ==> unchanged(merge)
    {
      if deviceId == 0 {
        r := CpuIter(enhanced, a, b, m, x, y, z, pixCount, minStep, merge, mr, adjust);
      } else if deviceId == 1 {
        r := Simul.Run(enhanced, a, b, m, x, y, z, pixCount, minStep, merge, mr, adjust);
      } else if hasOpenCl {
        var ret, _ := cl.Algo(pixCount, merge != null, handleBytes, status);
        if ret != Success {
          r := CpuIter(enhanced, a, b, m, x, y, z, pixCount, minStep, merge, mr, adjust);
        } else {
          r := ret;
        }
      } else {
        r := -1;
      }
    }
  }
}
