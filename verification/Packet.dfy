/** A data packet: typed samples, start time, sampling rate and the derived end time. */
module Packet {
  import opened Common
  import Id = StreamIdentifier

  datatype DataType = Integer32 | Text | Float | Double | Unknown

  /** The sample vector handed to one of the `setData` overloads. */
  datatype Samples =
    | Integers(ints: seq<int>)
    | Floats(reals: seq<real>)
    | Doubles(reals: seq<real>)
    | Chars(chars: seq<char>)

  /** Times are nanoseconds. */
  datatype State = State(
    identifier: Option<Id.Fields>,
    textData: seq<char>,
    integer32Data: seq<int>,
    floatData: seq<real>,
    doubleData: seq<real>,
    startTime: int,
    endTime: int,
    samplingRate: real,
    dataType: DataType)

  function Count(s: Samples): nat {
    match s
    case Integers(xs) => |xs|
    case Floats(xs) => |xs|
    case Doubles(xs) => |xs|
    case Chars(xs) => |xs|
  }

  /** `PacketImpl::size` */
  function Size(p: State): nat {
    match p.dataType
    case Unknown => 0
    case Integer32 => |p.integer32Data|
    case Float => |p.floatData|
    case Double => |p.doubleData|
    case Text => |p.textData|
  }

  /** `std::round`: to the nearest integer, halves away from zero. */
  function Round(x: real): (r: int)
    ensures -0.5 <= r as real - x <= 0.5
    ensures x > 0.0 ==> r as real - x > -0.5
    ensures x < 0.0 ==> r as real - x < 0.5
  {
    if x >= 0.0 then (x + 0.5).Floor else -((0.5 - x).Floor)
  }

  /** From the first to the last of n samples, in nanoseconds. */
  function ExactDuration(n: nat, rate: real): real
    requires n > 0 && rate > 0.0
  {
    (n - 1) as real / rate * 1000000000.0
  }

  function EndTime(start: int, rate: real, n: nat): int {
    if n > 0 && rate > 0.0 then start + Round(ExactDuration(n, rate)) else start
  }

  // The state as a function of the last accepted inputs.

  datatype Operation =
    | SetIdentifier(identifier: Id.Fields)
    | SetSamplingRate(rate: real)
    | SetStartTime(nanoseconds: int)
    | SetStartSeconds(seconds: real)
    | SetData(samples: Samples)
    | Clear

  const BLANK := State(None, [], [], [], [], 0, 0, 0.0, Unknown)

  function LastIdentifier(history: seq<Operation>): Option<Id.Fields> {
    if history == [] then None
    else
      match history[|history| - 1]
      case SetIdentifier(id) => if Id.Complete(id) then Some(id) else LastIdentifier(history[..|history| - 1])
      case Clear => None
      case _ => LastIdentifier(history[..|history| - 1])
  }

  function LastRate(history: seq<Operation>): real {
    if history == [] then 0.0
    else
      match history[|history| - 1]
      case SetSamplingRate(rate) => if rate > 0.0 then rate else LastRate(history[..|history| - 1])
      case Clear => 0.0
      case _ => LastRate(history[..|history| - 1])
  }

  function LastStart(history: seq<Operation>): int {
    if history == [] then 0
    else
      match history[|history| - 1]
      case SetStartTime(t) => t
      case SetStartSeconds(t) => Round(t * 1000000000.0)
      case Clear => 0
      case _ => LastStart(history[..|history| - 1])
  }

  function LastData(history: seq<Operation>): Option<Samples> {
    if history == [] then None
    else
      match history[|history| - 1]
      case SetData(s) => if Count(s) > 0 then Some(s) else LastData(history[..|history| - 1])
      case Clear => None
      case _ => LastData(history[..|history| - 1])
  }

  /** The one state that holds this identifier, start, rate and data. */
  function Canonical(identifier: Option<Id.Fields>, start: int, rate: real, data: Option<Samples>): State {
    match data
    case None => State(identifier, [], [], [], [], start, start, rate, Unknown)
    case Some(Integers(xs)) => State(identifier, [], xs, [], [], start, EndTime(start, rate, |xs|), rate, Integer32)
    case Some(Floats(xs)) => State(identifier, [], [], xs, [], start, EndTime(start, rate, |xs|), rate, Float)
    case Some(Doubles(xs)) => State(identifier, [], [], [], xs, start, EndTime(start, rate, |xs|), rate, Double)
    case Some(Chars(xs)) => State(identifier, xs, [], [], [], start, EndTime(start, rate, |xs|), rate, Text)
  }

  /** The packet's one non-empty vector is exactly these samples, and its type says so. */
  predicate HoldsExactly(p: State, samples: Samples) {
    match samples
    case Integers(xs) =>
      p.integer32Data == xs && p.dataType == Integer32 && p.floatData == [] && p.doubleData == [] && p.textData == []
    case Floats(xs) =>
      p.floatData == xs && p.dataType == Float && p.integer32Data == [] && p.doubleData == [] && p.textData == []
    case Doubles(xs) =>
      p.doubleData == xs && p.dataType == Double && p.integer32Data == [] && p.floatData == [] && p.textData == []
    case Chars(xs) =>
      p.textData == xs && p.dataType == Text && p.integer32Data == [] && p.floatData == [] && p.doubleData == []
  }

  function StateAfter(history: seq<Operation>): State {
    Canonical(LastIdentifier(history), LastStart(history), LastRate(history), LastData(history))
  }

  lemma StateAfterSetData(history: seq<Operation>, samples: Samples)
    ensures StateAfter(history + [SetData(samples)]) ==
            if Count(samples) == 0 then StateAfter(history)
            else Canonical(LastIdentifier(history), LastStart(history), LastRate(history), Some(samples))
  {
    assert (history + [SetData(samples)])[..|history|] == history;
  }

  lemma CanonicalEndTime(history: seq<Operation>)
    ensures var p := StateAfter(history); p.endTime == EndTime(p.startTime, p.samplingRate, Size(p))
  {
  }

  class Packet {
    var mIdentifier: Option<Id.Fields>
    var mTextData: seq<char>
    var mInteger32Data: seq<int>
    var mFloatData: seq<real>
    var mDoubleData: seq<real>
    var mStartTime: int
    var mEndTime: int
    var mSamplingRate: real
    var mDataType: DataType
    /** Every setter call so far, rejected ones included. */
    ghost var history: seq<Operation>

    function GetState(): State
      reads this
    {
      State(mIdentifier, mTextData, mInteger32Data, mFloatData, mDoubleData,
            mStartTime, mEndTime, mSamplingRate, mDataType)
    }

    /** Whatever was called before, only the last accepted inputs matter. */
    ghost predicate Valid()
      reads this
    {
      GetState() == StateAfter(history)
    }

    constructor ()
      ensures Valid() && history == []
    {
      mIdentifier, mTextData, mInteger32Data, mFloatData, mDoubleData := None, [], [], [], [];
      mStartTime, mEndTime, mSamplingRate, mDataType := 0, 0, 0.0, Unknown;
      history := [];
    }

    method ClearData()
      modifies this`mTextData, this`mInteger32Data, this`mFloatData, this`mDoubleData, this`mDataType
      ensures mTextData == [] && mInteger32Data == [] && mFloatData == [] && mDoubleData == []
      ensures mDataType == Unknown
    {
      mInteger32Data, mFloatData, mDoubleData, mTextData := [], [], [], [];
      mDataType := Unknown;
    }

    method UpdateEndTime()
      modifies this`mEndTime
      ensures mEndTime == EndTime(mStartTime, mSamplingRate, Size(GetState()))
    {
      mEndTime := mStartTime;
      var nSamples := Size(GetState());
      if nSamples > 0 && mSamplingRate > 0.0 {
        var traceDuration := Round((nSamples - 1) as real / mSamplingRate * 1000000000.0);
        mEndTime := mStartTime + traceDuration;
      }
    }

    method SetStreamIdentifier(identifier: Id.Fields) returns (r: Result<()>)
      requires Valid()
      modifies this
      ensures Valid() && history == old(history) + [SetIdentifier(identifier)]
      ensures r == if Id.Complete(identifier) then Ok(()) else Err(InvalidArgument)
      ensures GetState() == if r.Ok? then old(GetState()).(identifier := Some(identifier)) else old(GetState())
    {
      history := history + [SetIdentifier(identifier)];
      assert history[..|history| - 1] == old(history);
      if identifier.network == "" || identifier.station == "" || identifier.channel == "" ||
         !identifier.hasLocationCode
      {
        return Err(InvalidArgument);
      }
      mIdentifier := Some(identifier);
      return Ok(());
    }

    method SetSamplingRate(samplingRate: real) returns (r: Result<()>)
      requires Valid()
      modifies this
      ensures Valid() && history == old(history) + [Operation.SetSamplingRate(samplingRate)]
      ensures r == if samplingRate > 0.0 then Ok(()) else Err(InvalidArgument)
      ensures GetState() == if r.Ok? then old(GetState()).(samplingRate := samplingRate, endTime := mEndTime)
                            else old(GetState())
    {
      history := history + [Operation.SetSamplingRate(samplingRate)];
      assert history[..|history| - 1] == old(history);
      if samplingRate <= 0.0 {
        return Err(InvalidArgument);
      }
      mSamplingRate := samplingRate;
      UpdateEndTime();
      return Ok(());
    }

    method SetStartTime(startTime: int)
      requires Valid()
      modifies this
      ensures Valid() && history == old(history) + [Operation.SetStartTime(startTime)]
      ensures GetState() == old(GetState()).(startTime := startTime, endTime := mEndTime)
    {
      history := history + [Operation.SetStartTime(startTime)];
      assert history[..|history| - 1] == old(history);
      mStartTime := startTime;
      UpdateEndTime();
    }

    method SetStartSeconds(startTime: real)
      requires Valid()
      modifies this
      ensures Valid() && history == old(history) + [Operation.SetStartSeconds(startTime)]
      ensures GetState() == old(GetState()).(startTime := mStartTime, endTime := mEndTime)
      ensures -0.5 <= mStartTime as real - startTime * 1000000000.0 <= 0.5
    {
      history := history + [Operation.SetStartSeconds(startTime)];
      assert history[..|history| - 1] == old(history);
      mStartTime := Round(startTime * 1000000000.0);
      UpdateEndTime();
    }

    /** `PacketImpl::setData`: an empty vector leaves the previous data in place. */
    method StoreSamples(samples: Samples)
      modifies this`mTextData, this`mInteger32Data, this`mFloatData, this`mDoubleData, this`mDataType, this`mEndTime
      ensures GetState() == if Count(samples) > 0 then Canonical(mIdentifier, mStartTime, mSamplingRate, Some(samples))
                            else old(GetState())
    {
      if Count(samples) == 0 {
        return;
      }
      ClearData();
      match samples {
        case Integers(xs) => mInteger32Data, mDataType := xs, Integer32;
        case Floats(xs) => mFloatData, mDataType := xs, Float;
        case Doubles(xs) => mDoubleData, mDataType := xs, Double;
        case Chars(xs) => mTextData, mDataType := xs, Text;
      }
      UpdateEndTime();
    }

    /** All four overloads of `Packet::setData`. */
    method SetData(samples: Samples)
      requires Valid()
      modifies this
      ensures Valid() && history == old(history) + [Operation.SetData(samples)]
      ensures mIdentifier == old(mIdentifier) && mStartTime == old(mStartTime) && mSamplingRate == old(mSamplingRate)
      ensures if Count(samples) > 0 then HoldsExactly(GetState(), samples) else GetState() == old(GetState())
    {
      hide LastIdentifier, LastRate, LastStart, LastData;
      StateAfterSetData(history, samples);
      history := history + [Operation.SetData(samples)];
      StoreSamples(samples);
      CanonicalEndTime(history);
      UpdateEndTime();
    }

    method Clear()
      modifies this
      ensures Valid() && GetState() == BLANK && history == old(history) + [Operation.Clear]
    {
      history := history + [Operation.Clear];
      ClearData();
      mIdentifier, mStartTime, mEndTime, mSamplingRate := None, 0, 0, 0.0;
    }
  }

  /** `Packet::getEndTime` */
  function GetEndTime(p: State): Result<int> {
    if p.samplingRate <= 0.0 then Err(RuntimeError)
    else if Size(p) < 1 then Err(RuntimeError)
    else Ok(p.endTime)
  }

  function SampleVectors(p: State): nat {
    (if p.textData != [] then 1 else 0) + (if p.integer32Data != [] then 1 else 0)
    + (if p.floatData != [] then 1 else 0) + (if p.doubleData != [] then 1 else 0)
  }

  /**
   * At most one sample vector is non-empty; it is the one the type tag names and
   * holds the last data that was not empty.
   */
  lemma OneVectorHoldsTheData(history: seq<Operation>)
    ensures var p := StateAfter(history);
            && SampleVectors(p) <= 1
            && (Size(p) > 0 <==> p.dataType != Unknown)
            && (SampleVectors(p) == 1 <==> p.dataType != Unknown)
            && (LastData(history).Some? ==> Size(p) == Count(LastData(history).value))
            && (LastData(history).None? ==> p.dataType == Unknown)
  {
    LastDataNotEmpty(history);
  }

  lemma {:induction false} LastDataNotEmpty(history: seq<Operation>)
    ensures LastData(history).Some? ==> Count(LastData(history).value) > 0
  {
    if history != [] {
      LastDataNotEmpty(history[..|history| - 1]);
    }
  }

  lemma DurationMonotone(n: nat, m: nat, rate: real)
    requires 0 < n <= m && rate > 0.0
    ensures 0.0 <= ExactDuration(n, rate) <= ExactDuration(m, rate)
  {
    DivideMonotone((n - 1) as real, (m - 1) as real, rate);
  }

  lemma DivideMonotone(a: real, b: real, d: real)
    requires 0.0 <= a <= b && d > 0.0
    ensures 0.0 <= a / d <= b / d
  {
    assert b / d - a / d == (b - a) / d;
  }

  /**
   * The end time of any reachable packet that reports one is within half a
   * nanosecond of start + (n - 1)/rate, and never before the start; otherwise it
   * is the start.
   */
  lemma EndTimeIsAccurate(history: seq<Operation>)
    ensures var p := StateAfter(history);
            GetEndTime(p).Ok? ==>
              var duration := (Size(p) - 1) as real / p.samplingRate * 1000000000.0;
              var error := GetEndTime(p).value as real - (p.startTime as real + duration);
              -0.5 <= error <= 0.5 && p.startTime <= p.endTime
    ensures var p := StateAfter(history); GetEndTime(p).Err? ==> p.endTime == p.startTime
  {
    var p := StateAfter(history);
    if GetEndTime(p).Ok? {
      DurationMonotone(Size(p), Size(p), p.samplingRate);
    }
  }

  /** More samples at the same rate never end earlier. */
  lemma EndTimeMonotone(start: int, rate: real, n: nat, m: nat)
    requires n <= m
    ensures EndTime(start, rate, n) <= EndTime(start, rate, m)
  {
    if rate > 0.0 && m > 0 {
      if n > 0 {
        DurationMonotone(n, m, rate);
        FloorMonotone(ExactDuration(n, rate) + 0.5, ExactDuration(m, rate) + 0.5);
      } else {
        DurationMonotone(m, m, rate);
      }
    }
  }

  lemma FloorMonotone(x: real, y: real)
    requires x <= y
    ensures x.Floor <= y.Floor
  {
  }
}
