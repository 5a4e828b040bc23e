# dect: dual-energy material decomposition, modelled in Dafny

dect takes two CT images of the same object, A and B, taken at two X-ray
energies. For every voxel it estimates the fractions a, b and c of three
known materials. Each material i has an expected attenuation (alpha, beta,
gamma) in image A and in image B. A mixture is expected to measure
`alphaA*a + betaA*b + gammaA*c` in A and the same with the B coefficients in
B, with `a + b + c = 1`. The fractions are written as three output images
x, y, z, optionally mirrored (`idx_adjust`). An optional merged image
`mr*A + (1-mr)*B` is written as well.

The model covers:

- **`Mixing`**: the mixing model. `(ab, ratio)` is turned into fractions.
  Each enhanced run permutes the materials and maps its result back. Runs
  are summed and averaged.
- **`Search`**: the search shared by the libdect CPU solvers. A coarse
  11 x 11 grid scan is followed by a descent. The descent moves to the first
  cheapest of four clamped neighbours, or halves the step, until the step
  is below `min_step`. It is given by the functions `Scan` and `Refine`. The
  methods `CoarseScan`, `Descend` and `SearchVoxel` are the loops, proved
  against those functions. Termination of the descent is proved on a
  dyadic lattice of positions.
- **`Output`**: the output stage. It quantises to u8/u16/f32/f64, writes
  at the mirrored index, and applies the C integer conversions of the
  merged image. `Placed` is the state of an output image after a prefix of
  voxels has been written.
- **`CpuTemplate`** (libdect/cpu_template.cpp): the generic CPU solver. It
  clamps each measured pair into the coefficient range before searching.
- **`LibdectCpu`** (libdect/cpu.cpp): the older double-precision byte-output
  solver.
- **`DectCpu`** (dect/cpu.cpp): the command-line tool's solver. It has no
  grid scan, and each round's candidates are kept in local arrays.
- **`Simul`** (libdect/simul.cpp): the closed-form "simultaneous equations"
  solver.
- **`OpenCl`** (libdect/opencl.cpp): the control logic of the OpenCL back
  end. This covers the platform list and initialisation with its fallback
  from double to single precision. It also covers the guard of a run and
  the buffer sizes. Every OpenCL call is replaced by the status code it
  returns.
- **`Libdect`** (libdect/libdect.cpp): the public interface. This covers the
  device list and `dect_initDevice`, and the choice of CPU variant. It also
  covers `dect_process` with its fallback from OpenCL to the CPU,
  `dect_reconstitute` with its error bound, and `dect_getVersion`.

Floating-point values (`FPTYPE`, `float`, `double`) are exact reals.
Integer images are `int` sequences, and output images are arrays of their
numeric element values. Each solver's `Iter`/`Run` method writes the images
in place. It is proved to leave every image `Placed` with the sequence of
values that the specification functions give for each voxel. Lemmas state
what those values are: on the simplex, byte-ranged, a local minimum of the
error, or the exact solution.

## Model

| member | source | states |
|---|---|---|
| Mixing.Split | libdect/cpu_template.cpp:179-181 | the fractions from (ab, ratio) sum to one, a + b = ab, and they are on the simplex when ab and ratio are in [0,1] |
| Mixing.ReassembleAgrees | libdect/cpu_template.cpp:137-163 | mapping a permuted run's (ab, ratio) back to materials predicts, with the original coefficients, what the permuted frame predicted; the result is on the simplex |
| Mixing.ComplementForms | libdect/cpu_template.cpp:179-181 | the grid scan's c = 1 - a - b equals the descent's c = 1 - ab |
| Mixing.TotalStep | libdect/cpu_template.cpp:298-300 | adding one run's fractions to the running totals extends the total by that run |
| Mixing.TotalBounds | libdect/cpu_template.cpp:298-300 | the total of k simplex triples has components in [0,k] summing to k |
| Mixing.AverageOnSimplex | libdect/cpu_template.cpp:303-308 | dividing the totals by the run count (only when it exceeds 1) gives a triple on the simplex |
| Search.Clamp01 | libdect/cpu_template.cpp:234-241 | the clamp lands in [0,1] and is the identity on [0,1] |
| Search.Neighbour | libdect/cpu_template.cpp:211-241 | each of the four candidates lies in [0,1]^2 and moves along one coordinate only |
| Search.FirstMin | libdect/cpu_template.cpp:257-262 | the chosen candidate is no costlier than any other and strictly cheaper than every earlier one |
| Search.FirstMinStep | libdect/cpu_template.cpp:257-262 | the selection loop replaces its candidate exactly when it sees the first strictly smaller cost |
| Search.Scan | libdect/cpu_template.cpp:171-198 | the grid scan's best indices stay in 0..10 |
| Search.ScanBest | libdect/cpu_template.cpp:171-198 | the scan's error is the minimum over the grid; when below 5000^2 it is the cost at the first grid point attaining it, otherwise the best point is (0,0) |
| Search.ScanExtend | libdect/cpu_template.cpp:191-196 | one grid point updates the best only on a strictly smaller error |
| Search.GridCosts | libdect/cpu_template.cpp:175-189 | the grid has 121 costs, ordered ab-major |
| Search.Refine | libdect/cpu_template.cpp:205-275 | the descent terminates with step below min_step, and does nothing when started below it |
| Search.RefineSound | libdect/cpu_template.cpp:205-275 | the descent ends in [0,1]^2 with an error no larger than the start's, and either did not move or ended at a point whose error is its true cost |
| Search.RefineLocalMin | libdect/cpu_template.cpp:265-274 | when the descent runs at all, it ends at a local minimum: no neighbour at twice the final step is cheaper, and that step is at least min_step |
| Search.RoundProgress | libdect/cpu_template.cpp:265-274 | each round either halves the step or strictly shrinks the set of cheaper lattice points (the termination measure) |
| Search.Candidate | libdect/cpu_template.cpp:213-255 | one loop pass computes neighbour j and its cost |
| Search.BestNeighbour | libdect/cpu_template.cpp:207-263 | the four-candidate loop returns the first cheapest neighbour and its cost |
| Search.DescendRound | libdect/cpu_template.cpp:205-275 | one iteration of the while loop is one Round |
| Search.Descend | libdect/cpu_template.cpp:200-275 | the while loop computes Refine from the scan's start |
| Search.GridPoint | libdect/cpu_template.cpp:179-189 | the inner loop body computes the grid cost at (i/10, j/10) |
| Search.CoarseScan | libdect/cpu_template.cpp:171-198 | the nested loop returns the Scan result over the grid costs |
| Search.ScanStartOnLattice | libdect/cpu_template.cpp:200-203 | the descent starts on the lattice of step 0.05 from the best grid point |
| Search.ScanRunSound | libdect/cpu_template.cpp:127-301 | run i gives fractions on the simplex that predict what the permuted frame predicts at its final point; with min_step <= 0.05 that point is a local minimum |
| Search.ScanRuns | libdect/cpu_template.cpp:127-301 | enhanced runs yield enhanced triples |
| Search.ScanRunsAt | libdect/cpu_template.cpp:127-301 | entry i of the runs is run i |
| Search.SearchResultSound | libdect/cpu_template.cpp:127-308 | with at least one run the averaged result is on the simplex; with none it is zero |
| Search.ScanRunsOnSimplex | libdect/cpu_template.cpp:127-301 | every run's fractions are on the simplex |
| Search.AverageRunsOnSimplex | libdect/cpu_template.cpp:303-308 | averaging the totals of simplex triples over their number gives a triple on the simplex |
| Search.SearchRun | libdect/cpu_template.cpp:129-296 | one iteration of the run loop computes run i |
| Search.SumRuns | libdect/cpu_template.cpp:127-301 | the run loop's totals are the sum of the runs 0..enhanced-1 |
| Search.SearchVoxel | libdect/cpu_template.cpp:111-308 | the voxel's search computes the averaged result |
| Output.DecodeOutputType | libdect/libdect.h:29-32 | the codes 0..3 and nothing else name an output type |
| Output.DecodeCode | libdect/libdect.h:29-32 | decoding an output type's code gives it back |
| Output.Quantize | libdect/cpu_template.cpp:313-315 | the integer types store the floor of the fraction times the type's maximum; the floating types store the fraction |
| Output.QuantizeInRange | libdect/cpu_template.cpp:313-315 | a fraction in [0,1] quantises into [0, OTYPE_MAX] |
| Output.Byte | libdect/cpu.cpp:276-278 | the byte is the floor of 255 times the fraction |
| Output.ByteInRange | libdect/cpu.cpp:276-278 | a fraction in [0,1] gives a byte in [0,255], and 1 gives 255 |
| Output.SlotInvolution | libdect/cpu_template.cpp:310-311 | mirroring is its own inverse, so no two voxels share an output index |
| Output.MirrorCovers | libdect/cpu_template.cpp:310-311 | with idx_adjust = n - 1 every index of the output is written exactly once |
| Output.PlacedStep | libdect/cpu_template.cpp:317-319 | storing voxel i at its index extends the written prefix by one |
| Output.Trunc | libdect/cpu_template.cpp:323 | the C conversion to an integer truncates toward zero |
| Output.Wrap16 | libdect/cpu.cpp:285 | a uint16 value stored in an int16 wraps modulo 65536 into the int16 range, unchanged below 32768 |
| CpuTemplate.Min3 | libdect/cpu_template.cpp:104-107 | the minimum is one of the three and below each |
| CpuTemplate.Max3 | libdect/cpu_template.cpp:104-107 | the maximum is one of the three and above each |
| CpuTemplate.ClampTo | libdect/cpu_template.cpp:108-109 | std::clamp lands in [lo, hi] and keeps values already there |
| CpuTemplate.MeanBetween | libdect/cpu_template.cpp:103-109 | every simplex mixture lies between the smallest and largest coefficient |
| CpuTemplate.PreClampKeepsAttainable | libdect/cpu_template.cpp:103-109 | the clamp leaves alone any pair that a mixture can produce |
| CpuTemplate.TemplateVoxelSound | libdect/cpu_template.cpp:77-325 | with a run each stored element is in [0, OTYPE_MAX] and the floating outputs of a voxel sum to one; with no run all three are zero |
| CpuTemplate.Voxel | libdect/cpu_template.cpp:77-325 | writes exactly the quantised averaged fractions at the mirrored index of x, y, z and the truncated merge at that index of m |
| CpuTemplate.Step | libdect/cpu_template.cpp:343-346 | one loop iteration extends the placed prefix of each image by one voxel |
| CpuTemplate.Iter | libdect/cpu_template.cpp:327-348 | returns 0 with every image Placed with the per-voxel values of the solver, other indices untouched |
| LibdectCpu.CpuVoxelSound | libdect/cpu.cpp:60-286 | each stored byte is in [0,255], and every byte is zero when no run is made |
| LibdectCpu.Voxel | libdect/cpu.cpp:60-286 | writes the bytes of the averaged fractions at the mirrored index, and the uint16-converted merge read at the unmirrored index |
| LibdectCpu.Step | libdect/cpu.cpp:299-302 | one loop iteration extends the placed prefix of each image |
| LibdectCpu.Iter | libdect/cpu.cpp:288-304 | returns 0 with every image Placed with the solver's per-voxel values |
| DectCpu.Candidates | dect/cpu.cpp:130-154 | returns fresh four-element arrays whose entries are the four clamped neighbours, in the order +ab, +ratio, -ab, -ratio |
| DectCpu.ClampAll | dect/cpu.cpp:143-154 | the clamp loop replaces every entry of both arrays by its clamp into [0,1] |
| DectCpu.ClampUpTo | dect/cpu.cpp:143-154 | after the loop has visited the indices below i, exactly those entries are clamped and the rest are unchanged |
| DectCpu.NeighbourClamps | dect/cpu.cpp:133-154 | the stepped-then-clamped candidates, in array order, equal the shared Neighbour positions |
| DectCpu.ClampAt | dect/cpu.cpp:143-154 | clamps one array element and changes nothing else |
| DectCpu.CandidateError | dect/cpu.cpp:164-177 | computes a candidate's fractions and its squared error |
| DectCpu.PickMin | dect/cpu.cpp:156-184 | the selection loop returns the first index of minimum cost |
| DectCpu.ArrayRound | dect/cpu.cpp:130-195 | one while-loop iteration is one Round of the shared descent |
| DectCpu.DectStartOnLattice | dect/cpu.cpp:92-95 | the start (0.66, 0.5) with step 0.25 lies on a dyadic lattice |
| DectCpu.ArrayDescend | dect/cpu.cpp:128-196 | the while loop computes Refine from its start |
| DectCpu.DectRunSound | dect/cpu.cpp:90-221 | each run's fractions are on the simplex and predict what its final point predicts in the permuted frame; its error is at most 5000^2 and is the final point's cost unless it never moved; with min_step <= 0.25 the final point is a local minimum |
| DectCpu.DectRuns | dect/cpu.cpp:90-222 | enhanced runs yield enhanced triples |
| DectCpu.DectRunsAt | dect/cpu.cpp:90-222 | entry i of the runs is run i |
| DectCpu.DectAverageAgrees | dect/cpu.cpp:224-229 | dividing whenever enhanced is non-zero agrees with dividing when it exceeds 1 |
| DectCpu.DectResultSound | dect/cpu.cpp:74-229 | the averaged result is on the simplex with a run, zero without |
| DectCpu.DectRunsOnSimplex | dect/cpu.cpp:90-222 | every run's fractions are on the simplex |
| DectCpu.DectAverageOnSimplex | dect/cpu.cpp:224-229 | dividing the totals of simplex triples by their number gives a triple on the simplex |
| DectCpu.RunOnce | dect/cpu.cpp:92-221 | one iteration of the run loop computes run i |
| DectCpu.SumRuns | dect/cpu.cpp:90-222 | the run loop's totals are the sum of the runs |
| DectCpu.Solve | dect/cpu.cpp:71-229 | computes the averaged fractions of the voxel |
| DectCpu.DectVoxelSound | dect/cpu.cpp:234-240 | each stored byte is in [0,255], and every byte is zero when no run is made |
| DectCpu.Voxel | dect/cpu.cpp:61-244 | writes the bytes at the mirrored index of x, y, z and the uint16-converted merge of the voxel's own inputs at that index |
| DectCpu.Step | dect/cpu.cpp:258-260 | one loop iteration extends the placed prefix of each image |
| DectCpu.Iter | dect/cpu.cpp:246-262 | returns 0 with every image Placed with the solver's per-voxel values |
| Simul.SolveVoxel | libdect/simul.cpp:67-79 | the closed form's fractions sum to one and predict exactly the measured pair |
| Simul.SolveExact | libdect/simul.cpp:75-79 | the formulas for curx and cury, as written, satisfy both mixing equations |
| Simul.SolveUnique | libdect/simul.cpp:67-79 | any triple summing to one that predicts the pair is the closed form's |
| Simul.HomogeneousZero | libdect/simul.cpp:70-79 | the difference of two solutions solves the homogeneous system, whose only solution is zero when the closed form's divisors are non-zero |
| Simul.PureMaterialOne | libdect/simul.cpp:67-100 | a pure material-1 voxel solves to (1,0,0) and is stored as (255,0,0) |
| Simul.ByteClamp | libdect/simul.cpp:85-100 | the truncated, clamped byte is in [0,255], 255 from a fraction of 1 up, 0 from 0 down |
| Simul.ByteClampInUnit | libdect/simul.cpp:85-100 | on [0,1] truncate-and-clamp equals the search solvers' floor byte |
| Simul.ClosedForm | libdect/simul.cpp:70-79 | the loop body's arithmetic computes SolveVoxel |
| Simul.ClampBytes | libdect/simul.cpp:85-100 | the three clamps compute ByteClamp of each fraction |
| Simul.SimulVoxel | libdect/simul.cpp:67-107 | writes the clamped bytes at the mirrored index and the truncated merge |
| Simul.Step | libdect/simul.cpp:65-108 | one loop iteration extends the placed prefix of each image |
| Simul.Run | libdect/simul.cpp:54-111 | returns 0 with every image Placed with the closed-form per-voxel values |
| OpenCl.DeviceName | libdect/opencl.cpp:98-127 | a name exists exactly for the indices of the platform list, and is "OpenCL name (vendor)" |
| OpenCl.KernelName | libdect/opencl.cpp:249 | the kernel is "dect2" exactly for enhanced mode 3, otherwise "dect" |
| OpenCl.OutputBytes | libdect/opencl.cpp:296-309 | each output buffer is the voxel count times the element size, or one byte per voxel for an unknown type |
| OpenCl.MergeBytes | libdect/opencl.cpp:334-340 | the merge buffer holds one int16 per voxel when requested, else one memory handle |
| OpenCl.InitCodeSuccess | libdect/opencl.cpp:130-269 | initialisation returns success exactly when every check and OpenCL step succeeds |
| OpenCl.InitCodeRejects | libdect/opencl.cpp:138-140 | a missing platform or an unknown output type returns -1 |
| OpenCl.SingleRequestIgnoresDouble | libdect/opencl.cpp:176-177 | with single precision requested the double build's outcome makes no difference |
| OpenCl.Runtime.constructor | libdect/opencl.cpp:54-56 | starts uninitialised, in double precision, with u8 output |
| OpenCl.Runtime.GetDeviceCount | libdect/opencl.cpp:91-96 | one device per platform |
| OpenCl.Runtime.GetDeviceName | libdect/opencl.cpp:98-127 | the platform walk returns DeviceName |
| OpenCl.Runtime.Init | libdect/opencl.cpp:130-270 | returns InitCode and sets is_init exactly on success. The output type is recorded once the context has a device. Falling back to single precision clears use_double for good. The kernel, named by the enhanced mode, is created exactly when a program was built. The warning is given whenever the call succeeds with use_double cleared, by this or an earlier fallback, and single precision was not requested |
| OpenCl.StickyFallback | libdect/opencl.cpp:243-279 | after one fallback to single precision, a later initialisation whose double build succeeds still warns and runs still pass floats, because use_double is never set back |
| OpenCl.Runtime.Algo | libdect/opencl.cpp:281-340 | refuses with -1 before initialisation, otherwise sizes the buffers for the recorded type and returns the run's status |
| Libdect.CpuVariant | libdect/libdect.cpp:221-291 | a variant exists exactly for a known output type, with single precision iff use_single_fp is set |
| Libdect.CpuVariantExact | libdect/libdect.cpp:221-291 | two settings select the same variant iff they agree on precision and output type |
| Libdect.SkipSpace | libdect/libdect.cpp:86-95 | drops exactly the leading white space |
| Libdect.SkipSpaceFrom | libdect/libdect.cpp:86-95 | skipping a white-space prefix first changes nothing |
| Libdect.Kept | libdect/libdect.cpp:99-103 | keeps at most 7 characters of the trimmed git version, all of it when shorter |
| Libdect.Version | libdect/libdect.cpp:81-109 | the version string is at most 7 kept characters, a blank and "v0.3" long, so it fits the 128-character buffer |
| Libdect.GetVersion | libdect/libdect.cpp:81-109 | the buffer-filling code produces Version |
| Libdect.FirstNonSpace | libdect/libdect.cpp:86-95 | finds the first non-space character, or none when the string is all spaces |
| Libdect.CopyKept | libdect/libdect.cpp:99-103 | copies at most 7 characters from that position |
| Libdect.Append | libdect/libdect.cpp:104-106 | appends a string after the copied prefix |
| Libdect.ReconPure | libdect/libdect.cpp:356-361 | a pure voxel reconstitutes to that material's coefficients |
| Libdect.ByteRounds | libdect/cpu.cpp:276-278 | the solvers' bytes round the fraction down |
| Libdect.ReconstituteApprox | libdect/libdect.cpp:354-369 | reconstituting the floor bytes of a triple differs from the triple's prediction by at most (abs alpha + abs beta + abs gamma)/255 per image |
| Libdect.ReconstituteStoredApprox | libdect/libdect.cpp:354-369 | the truncated integers dect_reconstitute stores differ from the triple's prediction by less than that bound plus one |
| Libdect.ReconVoxel | libdect/libdect.cpp:356-368 | writes the truncated reconstituted pair at the mirrored index |
| Libdect.Reconstitute | libdect/libdect.cpp:346-372 | returns 0 with a and b Placed with the reconstituted values |
| Libdect.Library.constructor | libdect/libdect.cpp:51-52 | starts in double precision with u8 output |
| Libdect.Library.DeviceCount | libdect/libdect.cpp:181-184 | two CPU devices plus one per OpenCL platform |
| Libdect.Library.DeviceName | libdect/libdect.cpp:186-197 | "CPU", the simultaneous-equations label, then the OpenCL names; a name exists exactly below the count |
| Libdect.Library.InitDevice | libdect/libdect.cpp:199-208 | returns 0 and records the settings. For devices from 2 on it runs opencl_init and states the runtime's new is_init, use_double, output type and kernel; for the CPU devices the runtime is unchanged |
| Libdect.Library.CpuIter | libdect/libdect.cpp:210-292 | an unknown output type returns -1 and writes nothing; otherwise the chosen instantiation's outputs are Placed |
| Libdect.Library.Process | libdect/libdect.cpp:294-342 | device 0 runs the CPU solver and device 1 the closed form. An OpenCL device returns its run's success, or falls back once to the CPU solver. Without OpenCL support it returns -1 and writes nothing |

## Left out

- The OpenCL kernel (dect.cl) is not part of this model. Every OpenCL API call is a status code given as an input, and the kernel's writes to the images are not modelled.
- opencl_dump_platforms only lists platforms on the console. It is not modelled.
- Creating the buffers, setting the arguments, enqueueing and reading back in dect_algo_opencl collapse into one status input. The argument values and the copies are not modelled.
- Float and double are both exact reals. The single- and double-precision instantiations therefore compute the same values, and rounding effects of IEEE arithmetic are not captured.
- The grid loops' `test_ab += 0.1` is read as the exact grid k/10 for k = 0..10. Accumulated binary rounding could add or drop a grid line in the source.
- Output.Quantize takes the CPU instantiations for f32 and f64 to define OTYPE_MAX as 1 and FLOOR_FUNC as empty, as the OpenCL kernel prelude does (libdect/opencl.cpp:170-173). The instantiation units that define these macros for the CPU are not part of this model, and the template's own default FLOOR_FUNC is floor.
- The parallel-loop pragma of the template's iteration loop is not modelled. The model's loop is sequential.
- A merged value outside int16 (uint16 for libdect/cpu.cpp and dect/cpu.cpp) is undefined in C. The solvers require it to fit (the MergeFits predicates).
- Libdect.Reconstitute: requires the reconstituted values to fit int16, for the same reason.
- Simul.ByteClamp: the conversion `(int)(v * 255.0f)` is unbounded here. A value beyond the int range, which is undefined in C, clamps like any other.
- Simul.Run requires a non-zero determinant (Simul.Solvable). The source divides by it, and a zero gives infinities that the model does not represent.
- The search solvers require min_step > 0, which is what makes the descent terminate, and enhanced <= 3, since the permutation switch has only three cases.
- Libdect.Library.Process requires the search solvers' preconditions for every device other than 1, because any OpenCL failure falls back to the CPU solver.
- Libdect.Library.Process: device 1 writes one byte per voxel through a uint8_t cast whatever output type is recorded (libdect/libdect.cpp:316-320). Its arrays of element values stand for byte buffers there, so the device-1 clauses describe the caller's images only for u8 output. For u16, f32 or f64 the bytes are packed into the first pix_count bytes of the wider buffer, which the model does not represent.
- The error messages on stderr are not modelled: those of checkErr and checkErr2 (libdect/opencl.cpp:58-68), and dect_process's notices that it is switching to the CPU or that the device ID is unknown.
- OpenCl.Runtime.Init requires a non-negative platform index. A negative one indexes the platform vector out of range in C.
- The git version string is a parameter without its terminating NUL.
- The HAS_OPENCL build flag is the hasOpenCl field of the library, and the platforms the runtime reports are fixed when the runtime is created.
- dect/opencl.cpp and dect/main.cpp are not part of this model. The global `enhanced` of dect/cpu.cpp is a parameter.
- Image pointers are arrays of numeric element values. size_t counts are nat.
