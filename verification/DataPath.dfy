/**
 The realtime data thread: whole buffers into a bounded FIFO, losses into atomics. The first loss
 stays in its atomic and stops the flow of buffers.
 */
module DataPath {
  import opened Prelude
  import opened Capture
  import C = Continuity
  import L = Ledger
  import M = Mix

  const U64_MAX: nat := 0xFFFF_FFFF_FFFF_FFFF
  const OVERFLOW: nat := U64_MAX
  const NONE: nat := 0

  /** A loss as the data thread knows it: seconds of missed cycles, or a full ring. */
  datatype RawLoss = MissedFor(seconds: real) | RingFull

  /** Seconds encoded for an atomic: whole microseconds, kept clear of the two reserved codes. */
  function Micros(seconds: real): (code: nat)
    requires seconds >= 0.0
    ensures code != NONE && code != OVERFLOW
  {
    var whole := (seconds * 1000000.0).Floor;
    if whole < 1 then 1 else if whole > U64_MAX - 1 then U64_MAX - 1 else whole
  }

  function LossCode(l: RawLoss): nat
    requires l.MissedFor? ==> l.seconds >= 0.0
  {
    match l
    case RingFull => OVERFLOW
    case MissedFor(seconds) => Micros(seconds)
  }

  /** `Shared::loss` */
  function ReadLoss(code: nat): Option<Loss> {
    if code == NONE then None else if code == OVERFLOW then Some(Overflow) else Some(Missed(code))
  }

  /** `Shared::unconfirmed` */
  function ReadUnconfirmed(code: nat): Option<Loss> {
    if code == NONE then None else Some(Missed(code))
  }

  /** The code `hold` stores. */
  function HeldCode(deficit: Option<real>): nat
    requires deficit.Some? ==> deficit.value >= 0.0
  {
    if deficit.Some? then Micros(deficit.value) else NONE
  }

  /** Seconds survive the atomics to the microsecond, and neither kind of loss reads back as none
      or as the other. */
  lemma CodesKeepLosses(seconds: real)
    requires seconds >= 0.0
    ensures ReadLoss(LossCode(RingFull)) == Some(Overflow)
    ensures ReadLoss(LossCode(MissedFor(seconds))).Some? && ReadLoss(LossCode(MissedFor(seconds))).value.Missed?
    ensures ReadUnconfirmed(HeldCode(Some(seconds))) == ReadLoss(LossCode(MissedFor(seconds)))
    ensures 0.000001 <= seconds < 1000000000.0 ==>
      var m := ReadLoss(LossCode(MissedFor(seconds))).value.micros as real;
      m <= seconds * 1000000.0 < m + 1.0
  {
  }

  /** All the data thread owns, and the three atomics both threads see. */
  datatype Data = Data(
    ring: seq<Byte>,
    capacity: nat,
    mix: M.Mix,
    account: C.Account,
    seenEpoch: nat,
    lost: bool,
    epoch: nat,
    loss: nat,
    unconfirmed: nat)

  ghost predicate Valid(d: Data) {
    && C.Valid(d.account) && M.Valid(d.mix)
    && |d.ring| <= d.capacity
    // The latch holds a loss exactly when there was one.
    && (d.loss != NONE <==> d.lost)
    // Without one, the deficit the loop thread would read is the account's.
    && (!d.lost ==> d.unconfirmed == HeldCode(Deficit(d.account)))
  }

  function Deficit(a: C.Account): (s: Option<real>)
    requires C.Valid(a)
    ensures s.Some? ==> s.value >= 0.0
  {
    C.Standing(a)
  }

  function New(capacity: nat, mix: M.Mix, rate: nat): (d: Data)
    ensures M.Valid(mix) ==> Valid(d)
  {
    Data([], capacity, mix, C.New(rate), 0, false, 0, NONE, NONE)
  }

  function Lost(d: Data, l: RawLoss): Data
    requires l.MissedFor? ==> l.seconds >= 0.0
  {
    if d.lost then d else d.(lost := true, loss := LossCode(l))
  }

  predicate Fits(d: Data, samples: seq<Byte>)
    requires M.Valid(d.mix)
  {
    !d.lost && M.Reserved(d.mix, samples) <= d.capacity - |d.ring|
  }

  /** `DataPath::deliver`: the mixed buffer joins the FIFO if all of it fits, else the FIFO is full and
      that is the loss. */
  function Delivered(d: Data, samples: seq<Byte>): (r: Data)
    requires Valid(d)
    ensures Valid(r)
  {
    M.MixedFillsReservation(d.mix, samples);
    if d.lost then d
    else if Fits(d, samples) then d.(ring := d.ring + M.Mixed(d.mix, samples))
    else Lost(d, RingFull)
  }

  /** Latch a confirmed loss, or hold the deficit that may yet be repaid. */
  function Settled(d: Data, missed: Option<real>): Data
    requires C.Valid(d.account) && (missed.Some? ==> missed.value >= 0.0)
  {
    if missed.Some? then Lost(d, MissedFor(missed.value)) else d.(unconfirmed := HeldCode(Deficit(d.account)))
  }

  /** A reading of the stream's clock. */
  datatype Clock = Clock(ticks: nat, num: nat, denom: nat)

  function ReportOf(clock: Clock, frames: nat): C.Report {
    C.Report(clock.ticks, clock.num, clock.denom, frames)
  }

  /** `DataPath::account`, having read `epoch`: charge a report, and latch or hold what it leaves. */
  function Accounted(d: Data, epoch: nat, r: C.Report): (x: Data)
    requires Valid(d)
    ensures Valid(x)
  {
    var (account, lost) := L.Stepped(d.account, L.Event(epoch != d.seenEpoch, r));
    LossNonNegative(d.account, L.Event(epoch != d.seenEpoch, r));
    Settled(d.(account := account, seenEpoch := epoch), lost)
  }

  lemma LossNonNegative(a: C.Account, e: L.Event)
    requires C.Valid(a)
    ensures L.Stepped(a, e).1.Some? ==> L.Stepped(a, e).1.value >= 0.0
  {
  }

  /** A buffer goes over whole, or is the loss (or comes after one). */
  lemma DeliveredWholeOrNotAtAll(d: Data, samples: seq<Byte>)
    requires Valid(d)
    ensures var r := Delivered(d, samples);
            && (Fits(d, samples) ==> r.ring == d.ring + M.Mixed(d.mix, samples) && !d.lost && !r.lost)
            && (!Fits(d, samples) ==> r.ring == d.ring && r.lost && (!d.lost ==> r.loss == OVERFLOW))
            && (d.lost ==> r.lost && r.loss == d.loss)
  {
  }

  /** Accounting moves no audio, and never replaces a loss. */
  lemma AccountedMovesNothing(d: Data, epoch: nat, r: C.Report)
    requires Valid(d)
    ensures var x := Accounted(d, epoch, r);
            x.ring == d.ring && (d.lost ==> x.lost && x.loss == d.loss)
  {
  }

  /** Accounting latches a loss exactly when the report confirms one, as its seconds; otherwise it holds
      exactly the deficit then standing. */
  lemma AccountedLatchesTheVerdict(d: Data, epoch: nat, r: C.Report)
    requires Valid(d)
    ensures var (account, verdict) := L.Stepped(d.account, L.Event(epoch != d.seenEpoch, r));
            var x := Accounted(d, epoch, r);
            && (verdict.Some? ==> verdict.value >= 0.0)
            && x.account == account && x.seenEpoch == epoch
            && (x.lost <==> d.lost || verdict.Some?)
            && (!d.lost && verdict.Some? ==> x.loss == Micros(verdict.value))
            && (verdict.None? ==> x.unconfirmed == HeldCode(Deficit(account)))
  {
    LossNonNegative(d.account, L.Event(epoch != d.seenEpoch, r));
  }

  /** The buffers of one `process` callback delivered in order, empty ones skipped, on top of `frames`
      counted before them. */
  function Counted(d: Data, buffers: seq<seq<Byte>>, frames: nat): (r: (Data, nat))
    requires Valid(d)
    ensures Valid(r.0)
    decreases |buffers|
  {
    if buffers == [] then (d, frames)
    else if buffers[0] == [] then Counted(d, buffers[1..], frames)
    else Counted(Delivered(d, buffers[0]), buffers[1..], frames + M.Frames(d.mix, buffers[0]))
  }

  /** One `process` callback. Its frames are accounted only if there are any and the clock can be
      read. */
  function Processed(d: Data, buffers: seq<seq<Byte>>, clock: Option<Clock>): (r: Data)
    requires Valid(d)
    ensures Valid(r)
  {
    var (delivered, frames) := Counted(d, buffers, 0);
    if frames == 0 || clock.None? then delivered
    else Accounted(delivered, delivered.epoch, ReportOf(clock.value, frames))
  }

  /** `Shared`: all that the two threads share beside the ring. */
  class Shared {
    var epoch: nat
    var loss: nat
    var unconfirmed: nat

    constructor ()
      ensures epoch == 0 && loss == NONE && unconfirmed == NONE
    {
      epoch, loss, unconfirmed := 0, NONE, NONE;
    }
  }

  class DataPath {
    var ring: seq<Byte>
    const capacity: nat
    const mix: M.Mix
    const shared: Shared
    const continuity: C.Continuity
    var epoch: nat
    var lost: bool

    ghost function View(): Data
      reads this, shared, continuity
    {
      Data(ring, capacity, mix, continuity.View(), epoch, lost, shared.epoch, shared.loss, shared.unconfirmed)
    }

    constructor (capacity: nat, mix: M.Mix, rate: nat)
      requires M.Valid(mix)
      ensures View() == New(capacity, mix, rate) && fresh(shared) && fresh(continuity)
    {
      ring, epoch, lost := [], 0, false;
      this.capacity, this.mix := capacity, mix;
      shared := new Shared();
      continuity := new C.Continuity(rate);
    }

    method Lose(l: RawLoss)
      requires l.MissedFor? ==> l.seconds >= 0.0
      modifies this`lost, shared`loss
      ensures View() == Lost(old(View()), l)
    {
      if !lost {
        lost := true;
        match l
        case RingFull => shared.loss := OVERFLOW;
        case MissedFor(seconds) => shared.loss := Micros(seconds);
      }
    }

    method Deliver(samples: seq<Byte>) returns (frames: nat)
      requires Valid(View())
      modifies this`ring, this`lost, shared`loss
      ensures View() == Delivered(old(View()), samples)
      ensures frames == M.Frames(mix, samples)
    {
      frames := M.Frames(mix, samples);
      if lost {
        return;
      }
      var written := M.Reserved(mix, samples) <= capacity - |ring|;
      if written {
        ring := ring + M.Mixed(mix, samples);
      } else {
        Lose(RingFull);
      }
    }

    /** Charge a report, starting the account over if the stream changed state since the last. */
    method Charge(ticks: nat, num: nat, denom: nat, frames: nat) returns (missed: Option<real>)
      requires C.Valid(continuity.View())
      modifies this`epoch, continuity
      ensures epoch == shared.epoch
      ensures (continuity.View(), missed)
           == L.Stepped(old(continuity.View()), L.Event(shared.epoch != old(epoch), C.Report(ticks, num, denom, frames)))
      ensures missed.Some? ==> missed.value >= 0.0
    {
      LossNonNegative(continuity.View(), L.Event(shared.epoch != epoch, C.Report(ticks, num, denom, frames)));
      if shared.epoch != epoch {
        epoch := shared.epoch;
        continuity.Restart();
      }
      missed := continuity.Delivered(ticks, num, denom, frames);
    }

    method Settle(missed: Option<real>)
      requires C.Valid(continuity.View()) && (missed.Some? ==> missed.value >= 0.0)
      modifies this`lost, shared`loss, shared`unconfirmed
      ensures View() == Settled(old(View()), missed)
    {
      if missed.Some? {
        Lose(MissedFor(missed.value));
      } else {
        var deficit := continuity.Outstanding();
        shared.unconfirmed := HeldCode(deficit);
      }
    }

    method Account(ticks: nat, num: nat, denom: nat, frames: nat)
      requires Valid(View())
      modifies this`epoch, this`lost, shared`loss, shared`unconfirmed, continuity
      ensures View() == Accounted(old(View()), shared.epoch, C.Report(ticks, num, denom, frames))
    {
      var missed := Charge(ticks, num, denom, frames);
      Settle(missed);
    }

    /** The `process` callback over the buffers it dequeues. */
    method Process(buffers: seq<seq<Byte>>, clock: Option<Clock>)
      requires Valid(View())
      modifies this`ring, this`epoch, this`lost, shared`loss, shared`unconfirmed, continuity
      ensures View() == Processed(old(View()), buffers, clock)
    {
      var frames, rest := 0, buffers;
      while rest != []
        invariant Valid(View())
        invariant Counted(old(View()), buffers, 0) == Counted(View(), rest, frames)
        decreases |rest|
      {
        if rest[0] != [] {
          var n := Deliver(rest[0]);
          frames := frames + n;
        }
        rest := rest[1..];
      }
      if frames == 0 {
        return;
      }
      if clock.Some? {
        Account(clock.value.ticks, clock.value.num, clock.value.denom, frames);
      }
    }
  }
}
