/**
 * `SessionCredit`: the credit counters session management keeps for one
 * charging key of one subscriber. Nine unsigned 64-bit buckets record the
 * volume used, allowed by the charging server, being reported and already
 * reported; the documented mutators move volume between them.
 */
module Credit {
  /** C++ `uint64_t` and `uint32_t`. */
  const U64Modulus: int := 0x1_0000_0000_0000_0000
  type uint64 = x: int | 0 <= x < 0x1_0000_0000_0000_0000
  type uint32 = x: int | 0 <= x < 0x1_0000_0000

  /** `uint64_t` addition: the mathematical sum, reduced modulo 2^64. */
  function Add64(a: uint64, b: uint64): (r: uint64)
    ensures a + b < U64Modulus ==> r == a + b
    ensures a + b >= U64Modulus ==> r == a + b - U64Modulus && r < a && r < b
  {
    (a + b) % U64Modulus
  }

  /** `MAX_VALUES`: the number of buckets. */
  const MaxValues: nat := 9

  /** The `Bucket` enumerators, each standing for its index in the bucket array. */
  datatype Bucket =
    | UsedTx | UsedRx
    | AllowedTotal | AllowedTx | AllowedRx
    | ReportingTx | ReportingRx
    | ReportedTx | ReportedRx
  {
    /** The enumerator's value. */
    function Index(): (k: nat)
      ensures k < MaxValues
    {
      match this
      case UsedTx => 0
      case UsedRx => 1
      case AllowedTotal => 2
      case AllowedTx => 3
      case AllowedRx => 4
      case ReportingTx => 5
      case ReportingRx => 6
      case ReportedTx => 7
      case ReportedRx => 8
    }
  }

  /** The enumerator whose value is k. */
  function BucketAt(k: nat): (b: Bucket)
    requires k < MaxValues
    ensures b.Index() == k
  {
    [UsedTx, UsedRx, AllowedTotal, AllowedTx, AllowedRx, ReportingTx, ReportingRx, ReportedTx, ReportedRx][k]
  }

  /** The enumerators and the indices 0..MAX_VALUES-1 are in one-to-one correspondence. */
  lemma BucketIndexBijective(a: Bucket, b: Bucket)
    ensures a.Index() == b.Index() <==> a == b
    ensures BucketAt(a.Index()) == a
  {
  }

  datatype ReAuthState = ReauthNotNeeded | ReauthRequired | ReauthProcessing

  datatype ServiceState = ServiceEnabled | ServiceNeedsDeactivation | ServiceDisabled | ServiceNeedsActivation

  /** The credit in one bucket of a bucket array. */
  function Credit(buckets: seq<uint64>, b: Bucket): uint64
    requires |buckets| == MaxValues
  {
    buckets[b.Index()]
  }

  /** Adds an amount (modulo 2^64) to one bucket. */
  function Deposit(buckets: seq<uint64>, b: Bucket, amount: uint64): (r: seq<uint64>)
    requires |buckets| == MaxValues
    ensures |r| == MaxValues
    ensures Credit(r, b) == Add64(Credit(buckets, b), amount)
    ensures forall other: Bucket | other != b :: Credit(r, other) == Credit(buckets, other)
  {
    buckets[b.Index() := Add64(buckets[b.Index()], amount)]
  }

  /** Sets one bucket to 0. */
  function Clear(buckets: seq<uint64>, b: Bucket): (r: seq<uint64>)
    requires |buckets| == MaxValues
    ensures |r| == MaxValues
    ensures Credit(r, b) == 0
    ensures forall other: Bucket | other != b :: Credit(r, other) == Credit(buckets, other)
  {
    buckets[b.Index() := 0]
  }

  /** Nine empty buckets. */
  function NoCredit(): (r: seq<uint64>)
    ensures |r| == MaxValues
    ensures forall b: Bucket :: Credit(r, b) == 0
  {
    seq(MaxValues, _ => 0)
  }

  /** Whether either REPORTING_* bucket is above 0. */
  predicate Reporting(buckets: seq<uint64>)
    requires |buckets| == MaxValues
  {
    Credit(buckets, ReportingTx) > 0 || Credit(buckets, ReportingRx) > 0
  }

  /** The buckets after `add_used_credit(usedTx, usedRx)`. */
  function AfterAddUsedCredit(buckets: seq<uint64>, usedTx: uint64, usedRx: uint64): (r: seq<uint64>)
    requires |buckets| == MaxValues
    ensures |r| == MaxValues
  {
    Deposit(Deposit(buckets, UsedTx, usedTx), UsedRx, usedRx)
  }

  /** The buckets after `reset_reporting_credit()`. */
  function AfterResetReportingCredit(buckets: seq<uint64>): (r: seq<uint64>)
    requires |buckets| == MaxValues
    ensures |r| == MaxValues
  {
    Clear(Clear(buckets, ReportingTx), ReportingRx)
  }

  /** The buckets after `receive_credit(totalVolume, txVolume, rxVolume, …)`. */
  function AfterReceiveCredit(buckets: seq<uint64>, totalVolume: uint64, txVolume: uint64, rxVolume: uint64)
    : (r: seq<uint64>)
    requires |buckets| == MaxValues
    ensures |r| == MaxValues
  {
    var allowed := Deposit(Deposit(Deposit(buckets, AllowedTotal, totalVolume), AllowedTx, txVolume), AllowedRx, rxVolume);
    var reported := Deposit(Deposit(allowed, ReportedTx, Credit(buckets, ReportingTx)), ReportedRx, Credit(buckets, ReportingRx));
    Clear(Clear(reported, ReportingTx), ReportingRx)
  }

  /** Used credit goes into USED_TX and USED_RX; every other bucket, and the reporting status, stay. */
  lemma AddUsedCreditEffect(buckets: seq<uint64>, usedTx: uint64, usedRx: uint64)
    requires |buckets| == MaxValues
    ensures Credit(AfterAddUsedCredit(buckets, usedTx, usedRx), UsedTx) == Add64(Credit(buckets, UsedTx), usedTx)
    ensures Credit(AfterAddUsedCredit(buckets, usedTx, usedRx), UsedRx) == Add64(Credit(buckets, UsedRx), usedRx)
    ensures forall b: Bucket | b != UsedTx && b != UsedRx
              :: Credit(AfterAddUsedCredit(buckets, usedTx, usedRx), b) == Credit(buckets, b)
    ensures Reporting(AfterAddUsedCredit(buckets, usedTx, usedRx)) == Reporting(buckets)
  {
  }

  /** Resetting clears both REPORTING_* buckets, so the credit is no longer reporting; nothing else changes. */
  lemma ResetReportingCreditEffect(buckets: seq<uint64>)
    requires |buckets| == MaxValues
    ensures Credit(AfterResetReportingCredit(buckets), ReportingTx) == 0
    ensures Credit(AfterResetReportingCredit(buckets), ReportingRx) == 0
    ensures !Reporting(AfterResetReportingCredit(buckets))
    ensures forall b: Bucket | b != ReportingTx && b != ReportingRx
              :: Credit(AfterResetReportingCredit(buckets), b) == Credit(buckets, b)
  {
  }

  /**
   * Receiving credit adds the granted volumes to the ALLOWED_* buckets, moves
   * the REPORTING_* volume into REPORTED_*, and leaves the used volume alone.
   */
  lemma ReceiveCreditEffect(buckets: seq<uint64>, totalVolume: uint64, txVolume: uint64, rxVolume: uint64)
    requires |buckets| == MaxValues
    ensures var r := AfterReceiveCredit(buckets, totalVolume, txVolume, rxVolume);
      && Credit(r, AllowedTotal) == Add64(Credit(buckets, AllowedTotal), totalVolume)
      && Credit(r, AllowedTx) == Add64(Credit(buckets, AllowedTx), txVolume)
      && Credit(r, AllowedRx) == Add64(Credit(buckets, AllowedRx), rxVolume)
      && Credit(r, ReportedTx) == Add64(Credit(buckets, ReportedTx), Credit(buckets, ReportingTx))
      && Credit(r, ReportedRx) == Add64(Credit(buckets, ReportedRx), Credit(buckets, ReportingRx))
      && Credit(r, ReportingTx) == 0 && Credit(r, ReportingRx) == 0
      && Credit(r, UsedTx) == Credit(buckets, UsedTx) && Credit(r, UsedRx) == Credit(buckets, UsedRx)
  {
  }

  /**
   * The move from REPORTING_* to REPORTED_* loses nothing: in each direction
   * the sum of the two buckets is the same before and after (modulo 2^64),
   * and the credit is no longer reporting.
   */
  lemma ReceiveCreditMovesReportingVolume(buckets: seq<uint64>, totalVolume: uint64, txVolume: uint64, rxVolume: uint64)
    requires |buckets| == MaxValues
    ensures var r := AfterReceiveCredit(buckets, totalVolume, txVolume, rxVolume);
      && Credit(r, ReportedTx) + Credit(r, ReportingTx)
         == (Credit(buckets, ReportedTx) + Credit(buckets, ReportingTx)) % U64Modulus
      && Credit(r, ReportedRx) + Credit(r, ReportingRx)
         == (Credit(buckets, ReportedRx) + Credit(buckets, ReportingRx)) % U64Modulus
      && !Reporting(r)
  {
    ReceiveCreditEffect(buckets, totalVolume, txVolume, rxVolume);
  }

  /** After credit is received there is nothing left to reset. */
  lemma ResetAfterReceiveCreditChangesNothing(buckets: seq<uint64>, totalVolume: uint64, txVolume: uint64, rxVolume: uint64)
    requires |buckets| == MaxValues
    ensures var r := AfterReceiveCredit(buckets, totalVolume, txVolume, rxVolume);
      AfterResetReportingCredit(r) == r
  {
    var r := AfterReceiveCredit(buckets, totalVolume, txVolume, rxVolume);
    ReceiveCreditEffect(buckets, totalVolume, txVolume, rxVolume);
    forall k | 0 <= k < MaxValues
      ensures AfterResetReportingCredit(r)[k] == r[k]
    {
      BucketIndexBijective(BucketAt(k), ReportingTx);
      BucketIndexBijective(BucketAt(k), ReportingRx);
      assert Credit(AfterResetReportingCredit(r), BucketAt(k)) == Credit(r, BucketAt(k));
    }
  }

  /** The credit counters of one charging key. */
  class SessionCredit {
    var reporting: bool
    var isFinal: bool
    var reauthState: ReAuthState
    var serviceState: ServiceState
    /** `buckets_[MAX_VALUES]`, indexed by `Bucket`. */
    const buckets: array<uint64>

    ghost predicate Valid()
      reads this
    {
      buckets.Length == MaxValues
    }

    /** `SessionCredit()`: empty buckets, service enabled, no reauthorization needed. */
    constructor()
      ensures Valid() && fresh(buckets)
      ensures buckets[..] == NoCredit()
      ensures !reporting && !isFinal
      ensures reauthState == ReauthNotNeeded && serviceState == ServiceEnabled
    {
      reporting := false;
      isFinal := false;
      reauthState := ReauthNotNeeded;
      serviceState := ServiceEnabled;
      buckets := new uint64[MaxValues](_ => 0);
    }

    /** `SessionCredit(start_state)`: as above, starting in the given service state. */
    constructor WithServiceState(startState: ServiceState)
      ensures Valid() && fresh(buckets)
      ensures buckets[..] == NoCredit()
      ensures !reporting && !isFinal
      ensures reauthState == ReauthNotNeeded && serviceState == startState
    {
      reporting := false;
      isFinal := false;
      reauthState := ReauthNotNeeded;
      serviceState := startState;
      buckets := new uint64[MaxValues](_ => 0);
    }

    /** `get_credit(bucket)`: the credit in one bucket; a read that changes nothing. */
    function GetCredit(bucket: Bucket): (r: uint64)
      reads this, buckets
      requires Valid()
      ensures r == Credit(buckets[..], bucket)
    {
      buckets[bucket.Index()]
    }

    /** `is_reporting()`: whether either REPORTING_* bucket is above 0. */
    function IsReporting(): (r: bool)
      reads this, buckets
      requires Valid()
      ensures r <==> GetCredit(ReportingTx) > 0 || GetCredit(ReportingRx) > 0
    {
      Reporting(buckets[..])
    }

    /**
     * `add_used_credit(used_tx, used_rx)`. Only the buckets are specified:
     * what the call does to the scalar fields is left open.
     */
    method AddUsedCredit(usedTx: uint64, usedRx: uint64)
      requires Valid()
      modifies this, buckets
      ensures buckets[..] == AfterAddUsedCredit(old(buckets[..]), usedTx, usedRx)
    {
      buckets[UsedTx.Index()] := Add64(buckets[UsedTx.Index()], usedTx);
      buckets[UsedRx.Index()] := Add64(buckets[UsedRx.Index()], usedRx);
    }

    /**
     * `reset_reporting_credit()`. Only the buckets are specified: what the
     * call does to the reporting flag and the other scalar fields is left open.
     */
    method ResetReportingCredit()
      requires Valid()
      modifies this, buckets
      ensures buckets[..] == AfterResetReportingCredit(old(buckets[..]))
      ensures !IsReporting()
    {
      buckets[ReportingTx.Index()] := 0;
      buckets[ReportingRx.Index()] := 0;
      ResetReportingCreditEffect(old(buckets[..]));
    }

    /**
     * `receive_credit(total_volume, tx_volume, rx_volume, validity_time, is_final)`,
     * as far as the buckets go: what `validity_time` and `is_final` do to the
     * expiry time, the final-unit flag and the other scalar fields is left open.
     */
    method ReceiveCredit(totalVolume: uint64, txVolume: uint64, rxVolume: uint64, validityTime: uint32, isFinal: bool)
      requires Valid()
      modifies this, buckets
      ensures buckets[..] == AfterReceiveCredit(old(buckets[..]), totalVolume, txVolume, rxVolume)
      ensures !IsReporting()
    {
      buckets[AllowedTotal.Index()] := Add64(buckets[AllowedTotal.Index()], totalVolume);
      buckets[AllowedTx.Index()] := Add64(buckets[AllowedTx.Index()], txVolume);
      buckets[AllowedRx.Index()] := Add64(buckets[AllowedRx.Index()], rxVolume);
      buckets[ReportedTx.Index()] := Add64(buckets[ReportedTx.Index()], buckets[ReportingTx.Index()]);
      buckets[ReportedRx.Index()] := Add64(buckets[ReportedRx.Index()], buckets[ReportingRx.Index()]);
      buckets[ReportingTx.Index()] := 0;
      buckets[ReportingRx.Index()] := 0;
      ReceiveCreditMovesReportingVolume(old(buckets[..]), totalVolume, txVolume, rxVolume);
    }

    /** `reauth()`: marks the credit REAUTH_REQUIRED and changes nothing else. */
    method Reauth()
      modifies this
      ensures reauthState == ReauthRequired
      ensures reporting == old(reporting) && isFinal == old(isFinal) && serviceState == old(serviceState)
    {
      reauthState := ReauthRequired;
    }
  }
}
