/** The control logic of the OpenCL back end of libdect/opencl.cpp: platform
    names, the initialisation state machine with its double-to-single
    precision fallback, the initialisation guard of a run and the sizes of
    the device buffers. Every call into the OpenCL runtime is replaced by the
    status code it returned (0 is CL_SUCCESS), given as an input. */
module OpenCl {
  import opened Output

  /** The status code of a successful OpenCL call. */
  const Success := 0

  /** CL_BUILD_ERROR, used to force the single-precision build. */
  const BuildError := -2

  /** What the runtime reports about one OpenCL platform. */
  datatype Platform = Platform(name: string, vendor: string)

  /** The status codes the OpenCL runtime returns during one initialisation:
      context creation on a GPU and on the default device type, the number of
      devices of the context, the double- and single-precision program builds,
      kernel creation and command-queue creation. */
  datatype InitOracle = InitOracle(gpuContext: int, defaultContext: int, deviceCount: nat,
                                   doubleBuild: int, singleBuild: int, kernel: int, queue: int)

  /** What a run hands to the device: the byte size of each output buffer,
      of the merge buffer, the merge flag argument, and whether the floating
      arguments are passed as doubles. */
  datatype Launch = Launch(outBytes: nat, mergeBytes: nat, mergeFlag: int, doubleArgs: bool)

  /** The name reported for a platform. */
  function PlatformLabel(p: Platform): string {
    "OpenCL " + p.name + " (" + p.vendor + ")\n"
  }

  /** The name of OpenCL device idx: present exactly for the indices of the
      platform list. */
  function DeviceName(platforms: seq<Platform>, idx: int): (r: Option<string>)
    ensures r.Some? <==> 0 <= idx < |platforms|
    ensures r.Some? ==> r.value == PlatformLabel(platforms[idx])
  {
    if 0 <= idx < |platforms| then Some(PlatformLabel(platforms[idx])) else None
  }

  /** The name of the kernel to run: the second kernel for enhanced mode 3. */
  function KernelName(enhanced: int): (k: string)
    ensures k == "dect2" <==> enhanced == 3
    ensures k == "dect" <==> enhanced != 3
  {
    if enhanced == 3 then "dect2" else "dect"
  }

  /** Bytes per output element of each output type. */
  function ElementBytes(t: OutputType): nat {
    match t
    case U8 => 1
    case U16 => 2
    case F32 => 4
    case F64 => 8
  }

  /** The byte size of one output buffer for pixCount voxels: one element per
      voxel for a known output type; an unknown code falls through the switch
      with one byte per voxel. */
  function OutputBytes(pixCount: nat, otype: int): (n: nat)
    ensures DecodeOutputType(otype).Some? ==> n == pixCount * ElementBytes(DecodeOutputType(otype).value)
    ensures DecodeOutputType(otype).None? ==> n == pixCount
  {
    if otype == 1 then pixCount * 2
    else if otype == 2 then pixCount * 4
    else if otype == 3 then pixCount * 8
    else pixCount
  }

  /** The byte size of the merge buffer: one int16 per voxel when a merged
      image is requested, a placeholder of one memory handle otherwise. */
  function MergeBytes(pixCount: nat, hasMerge: bool, handleBytes: nat): (n: nat)
    ensures hasMerge ==> n == 2 * pixCount
    ensures !hasMerge ==> n == handleBytes
  {
    if hasMerge then pixCount * 2 else handleBytes
  }

  /** The status of context creation: the GPU context, or on its failure the
      default-device context. */
  function ContextStatus(o: InitOracle): int {
    if o.gpuContext != Success then o.defaultContext else Success
  }

  /** Initialisation gets past the platform, context and device checks and
      records the output type. */
  predicate ReachesOtype(o: InitOracle, platformCount: nat, platform: int) {
    platformCount != 0 && platform < platformCount && ContextStatus(o) == Success && o.deviceCount > 0
  }

  /** Initialisation gets to the program builds: the output type is known. */
  predicate ReachesBuild(o: InitOracle, platformCount: nat, platform: int, otype: int) {
    ReachesOtype(o, platformCount, platform) && DecodeOutputType(otype).Some?
  }

  /** The single-precision program is built: single precision was requested,
      or the double-precision build failed. */
  predicate SingleBuilt(o: InitOracle, useSingleFp: int) {
    useSingleFp != 0 || o.doubleBuild != Success
  }

  /** The status of the program build that is kept. */
  function BuildStatus(o: InitOracle, useSingleFp: int): int {
    if SingleBuilt(o, useSingleFp) then o.singleBuild else Success
  }

  /** The code initialisation returns: the first failing step's status, -1
      for a missing platform, device or output type. */
  function InitCode(o: InitOracle, platformCount: nat, platform: int, useSingleFp: int, otype: int): int {
    if platformCount == 0 || platform >= platformCount then -1
    else if ContextStatus(o) != Success then ContextStatus(o)
    else if o.deviceCount == 0 then -1
    else if DecodeOutputType(otype).None? then -1
    else if BuildStatus(o, useSingleFp) != Success then BuildStatus(o, useSingleFp)
    else if o.kernel != Success then o.kernel
    else o.queue
  }

  /** Initialisation succeeds exactly when there is such a platform, a
      context with a device, a known output type, and every build, kernel and
      queue step succeeds. */
  lemma InitCodeSuccess(o: InitOracle, platformCount: nat, platform: int, useSingleFp: int, otype: int)
    ensures InitCode(o, platformCount, platform, useSingleFp, otype) == Success <==>
      ReachesBuild(o, platformCount, platform, otype) && BuildStatus(o, useSingleFp) == Success &&
      o.kernel == Success && o.queue == Success
  {
  }

  /** Without platforms, for a platform beyond the list, or for an unknown
      output type initialisation fails with -1. */
  lemma InitCodeRejects(o: InitOracle, platformCount: nat, platform: int, useSingleFp: int, otype: int)
    ensures platformCount == 0 || platform >= platformCount ==>
      InitCode(o, platformCount, platform, useSingleFp, otype) == -1
    ensures ReachesOtype(o, platformCount, platform) && DecodeOutputType(otype).None? ==>
      InitCode(o, platformCount, platform, useSingleFp, otype) == -1
  {
  }

  /** A request for single precision never builds the double-precision
      program, whatever the device supports. */
  lemma SingleRequestIgnoresDouble(o: InitOracle, o': InitOracle, platformCount: nat, platform: int, useSingleFp: int, otype: int)
    requires useSingleFp != 0 && o' == o.(doubleBuild := o'.doubleBuild)
    ensures InitCode(o, platformCount, platform, useSingleFp, otype) == InitCode(o', platformCount, platform, useSingleFp, otype)
  {
  }

  /** use_double is never set back to 1: once an initialisation has fallen
      back to single precision, a later initialisation on a device whose
      double-precision build succeeds still warns, and runs still pass their
      floating arguments as floats although the program was built in double
      precision. */
  method StickyFallback(p: Platform, otype: int, fallback: InitOracle, later: InitOracle)
    returns (warned: bool, doubleArgs: bool)
    requires ReachesBuild(fallback, 1, 0, otype) && fallback.doubleBuild != Success
    requires InitCode(later, 1, 0, 0, otype) == Success && later.doubleBuild == Success
    ensures warned && !doubleArgs
  {
    var rt := new Runtime([p]);
    var _, _ := rt.Init(0, 0, 0, otype, fallback);
    var r, w := rt.Init(0, 0, 0, otype, later);
    var _, launch := rt.Algo(0, false, 0, 0);
    warned := w;
    doubleArgs := launch.Some? && launch.value.doubleArgs;
  }

  /** The OpenCL state of libdect: the static flags and output type of
      libdect/opencl.cpp and the platforms the runtime reports. */
  class Runtime {
    const platforms: seq<Platform>
    var isInit: int
    var useDouble: int
    var otype: int
    /** The kernel created by the last initialisation that got that far. */
    var kernelName: string

    /** The state at load time: not initialised, double precision, u8. */
    constructor (platforms: seq<Platform>)
      ensures this.platforms == platforms
      ensures isInit == 0 && useDouble == 1 && otype == Code(U8) && kernelName == ""
    {
      this.platforms := platforms;
      isInit := 0;
      useDouble := 1;
      otype := Code(U8);
      kernelName := "";
    }

    /** The number of OpenCL devices: one per platform. */
    method GetDeviceCount() returns (n: int)
      ensures n == |platforms|
    {
      n := |platforms|;
    }

    /** Walks the platform list for the one with index idx. */
    method GetDeviceName(idx: int) returns (name: Option<string>)
      ensures name == DeviceName(platforms, idx)
    {
      if |platforms| == 0 {
        return None;
      }
      var id := 0;
      while id < |platforms|
        invariant 0 <= id <= |platforms|
        invariant !(0 <= idx < id)
      {
        if idx == id {
          return Some(PlatformLabel(platforms[id]));
        }
        id := id + 1;
      }
      name := None;
    }

    /** opencl_init: clears the initialised flag, checks the platform,
        creates a context (GPU first, then the default device type), builds
        the program in double precision unless single precision is requested,
        falls back once to single precision, creates the kernel and the
        queue, and sets the flag only when every step succeeded. warned
        reports the warning that double precision was unavailable. */
    method Init(platform: int, enhanced: int, useSingleFp: int, otype: int, o: InitOracle)
      returns (r: int, warned: bool)
      requires 0 <= platform
      modifies this
      ensures r == InitCode(o, |platforms|, platform, useSingleFp, otype)
      ensures isInit == (if r == Success then 1 else 0)
      ensures this.otype == (if ReachesOtype(o, |platforms|, platform) then otype else old(this.otype))
      ensures useDouble == (if ReachesBuild(o, |platforms|, platform, otype) && SingleBuilt(o, useSingleFp)
                            then 0 else old(useDouble))
      ensures old(useDouble) == 0 ==> useDouble == 0
      ensures r == Success && useSingleFp != 0 ==> useDouble == 0
      ensures r == Success ==> kernelName == KernelName(enhanced)
      ensures kernelName == (if ReachesBuild(o, |platforms|, platform, otype) && BuildStatus(o, useSingleFp) == Success
                             then KernelName(enhanced) else old(kernelName))
      ensures warned <==> r == Success && useDouble == 0 && useSingleFp == 0
    {
      warned := false;
      isInit := 0;
      var count := |platforms|;
      if count == 0 {
        return -1, false;
      }
      if platform >= count {
        return -1, false;
      }
      var err := o.gpuContext;
      if err != Success {
        err := o.defaultContext;
      }
      if err != Success {
        return err, false;
      }
      if o.deviceCount == 0 {
        return -1, false;
      }
      this.otype := otype;
      if useSingleFp != 0 {
        err := BuildError;
      } else {
        if !(0 <= otype < 4) {
          return -1, false;
        }
        err := o.doubleBuild;
      }
      if err != Success {
        if !(0 <= otype < 4) {
          return -1, false;
        }
        err := o.singleBuild;
        useDouble := 0;
      }
      if err != Success {
        return err, false;
      }
      kernelName := KernelName(enhanced);
      err := o.kernel;
      if err != Success {
        return err, false;
      }
      err := o.queue;
      if err != Success {
        return err, false;
      }
      warned := useDouble == 0 && useSingleFp == 0;
      isInit := 1;
      r := Success;
    }

    /** dect_algo_opencl: refuses to run before a successful initialisation;
        otherwise sizes the buffers for the recorded output type and returns
        the status of the run (status is what the buffer, argument, enqueue
        and read-back calls returned, 0 when all succeeded). */
    method Algo(pixCount: nat, hasMerge: bool, handleBytes: nat, status: int)
      returns (r: int, launch: Option<Launch>)
      ensures isInit == 0 ==> r == -1 && launch == None
      ensures isInit != 0 ==> r == status
      ensures isInit != 0 ==>
        launch == Some(Launch(OutputBytes(pixCount, otype), MergeBytes(pixCount, hasMerge, handleBytes),
                              if hasMerge then 1 else 0, useDouble != 0))
    {
      if isInit == 0 {
        return -1, None;
      }
      var outSize := pixCount;
      if otype == 1 {
        outSize := outSize * 2;
      } else if otype == 2 {
        outSize := outSize * 4;
      } else if otype == 3 {
        outSize := outSize * 8;
      }
      var mergeSize := if hasMerge then pixCount * 2 else handleBytes;
      launch := Some(Launch(outSize, mergeSize, if hasMerge then 1 else 0, useDouble != 0));
      r := status;
    }
  }
}
