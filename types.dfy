/** Values shared by the whole scheduler model: the task record, addresses,
    errors, events, the runtime configuration and the outside world that the
    scheduler only queries (preimages, dispatch, weights). */
module Types {

  datatype Option<+T> = None | Some(value: T) {
    function GetOr(default: T): T {
      if Some? then value else default
    }
  }

  datatype Result<+T, +E> = Ok(value: T) | Err(error: E)

  /** The runtime's block number is a `u32`. */
  const BLOCK_MAX: nat := 0xFFFF_FFFF
  type BlockNumber = n: nat | n <= BLOCK_MAX

  /** `Weight` is a `u64`. */
  const WEIGHT_MAX: nat := 0xFFFF_FFFF_FFFF_FFFF
  type Weight = n: nat | n <= WEIGHT_MAX

  type U8 = n: nat | n < 256
  type U32 = n: nat | n <= 0xFFFF_FFFF

  /** Lower is more urgent. */
  type Priority = U8

  /** A schedule id: a byte string (bounded by `maxScheduleIdLen` where the source's type says so). */
  type Id = seq<U8>

  /** A runtime call and a preimage hash are opaque to the scheduler. */
  type Call = nat
  type PreimageHash = nat

  /** `MaybeHashed`: the call itself, or the hash of its preimage. */
  datatype MaybeHashed = Value(call: Call) | Hash(hash: PreimageHash)

  /** `schedule::Period`: every `period` blocks, `count` more times. */
  datatype Period = Period(period: BlockNumber, count: U32)

  /** The caller origin (`PalletsOrigin`); only `Signed` changes the item weight. */
  datatype Origin = Root | Signed(account: nat) | Unsigned | Other(pallet: nat, kind: nat)

  /** One scheduled task (`ScheduledV4`). */
  datatype Scheduled = Task(
    maybeId: Option<Id>,
    priority: Priority,
    call: MaybeHashed,
    maybePeriodic: Option<Period>,
    origin: Origin)

  /** `TaskAddress`: the block and the position in that block's agenda. */
  datatype TaskAddress = TaskAddress(when: BlockNumber, index: nat)

  datatype DispatchTime = At(block: BlockNumber) | After(delay: BlockNumber)

  datatype Error =
    | FailedToSchedule
    | NotFound
    | TargetBlockNumberInPast
    | RescheduleNoChange
    | ScheduleIdTooLong
    | TooManyAgendas
    | CallTooLong
    | BadOrigin

  datatype Ordering = Less | Equal | Greater

  /** `DispatchResult`: success, or the dispatch error (an opaque code). */
  datatype DispatchResult = Success | Failure(code: nat)

  datatype Event =
    | Scheduled(when: BlockNumber, index: nat)
    | Canceled(when: BlockNumber, index: nat)
    | Dispatched(task: TaskAddress, id: Option<Id>, result: DispatchResult)
    | CallLookupFailed(task: TaskAddress, id: Option<Id>)

  /** Calls into the preimage provider that change its reference counts. */
  datatype PreimageOp = Request(hash: PreimageHash) | Unrequest(hash: PreimageHash)

  /** The benchmarked weight functions of `WeightInfo` that `item` consults. */
  datatype Benchmark =
    | OnInitialize
    | OnInitializeNamed
    | OnInitializePeriodic
    | OnInitializePeriodicNamed
    | OnInitializeResolved
    | OnInitializeNamedResolved
    | OnInitializePeriodicResolved
    | OnInitializePeriodicNamedResolved
    | OnInitializeAborted
    | OnInitializeNamedAborted

  /** A benchmarked weight function `base + slope * n`. */
  datatype Affine = Affine(base: Weight, slope: Weight)

  /** The runtime configuration (`Config`) and the functions the scheduler
      calls but does not define. */
  datatype Config = Config(
    maxScheduledPerBlock: U32,
    maxScheduleIdLen: U32,
    maxCallLen: U32,
    maximumWeight: Weight,
    hardDeadline: Priority,
    noPreimagePostponement: Option<BlockNumber>,
    weightInfo: Benchmark -> Affine,
    dbReadWrite: Weight,
    encodedLen: MaybeHashed -> nat,
    callWeight: Call -> Weight,
    privilegeCmp: (Origin, Origin) -> Option<Ordering>)

  /** What `call.dispatch` reports: the actual weight, if known, and the result. */
  datatype PostDispatch = PostDispatch(actualWeight: Option<Weight>, result: DispatchResult)

  /** The state of the rest of the chain during one block: which preimages
      are available and how each call behaves when dispatched. */
  datatype Chain = Chain(
    preimage: PreimageHash -> Option<Call>,
    dispatch: (Call, Origin) -> PostDispatch)

  /** `saturating_add` on block numbers. */
  function SatAddBlock(a: BlockNumber, b: BlockNumber): BlockNumber {
    if a + b <= BLOCK_MAX then a + b else BLOCK_MAX
  }

  /** Plain `+` on a `u32` block number, wrapping as a release build does. */
  function WrapAddBlock(a: BlockNumber, b: BlockNumber): BlockNumber {
    (a + b) % (BLOCK_MAX + 1)
  }

  /** `saturating_add` on weights. */
  function SatAdd(a: Weight, b: Weight): Weight {
    if a + b <= WEIGHT_MAX then a + b else WEIGHT_MAX
  }

  /** A saturating add on block numbers never falls below either operand, and it
      falls short of the sum only by stopping at the largest block number. */
  lemma SatAddBlockSaturates(a: BlockNumber, b: BlockNumber)
    ensures var r := SatAddBlock(a, b);
      a <= r <= a + b && b <= r && (r < a + b ==> r == BLOCK_MAX)
  {
  }

  /** A wrapping add gives the sum or the sum less 2^32, and the result is
      below the first operand exactly when the sum overflowed. */
  lemma WrapAddBlockWraps(a: BlockNumber, b: BlockNumber)
    ensures var r := WrapAddBlock(a, b);
      (r == a + b || r == a + b - (BLOCK_MAX + 1)) && (r < a <==> a + b > BLOCK_MAX)
  {
  }

  /** A saturating add on weights never falls below either operand, and it
      falls short of the sum only by stopping at the largest weight. */
  lemma SatAddSaturates(a: Weight, b: Weight)
    ensures var r := SatAdd(a, b);
      a <= r <= a + b && b <= r && (r < a + b ==> r == WEIGHT_MAX)
  {
  }
}
