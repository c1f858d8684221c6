/**
 * Post-processing of the gesture classifier (src/component/comp_inference.hpp):
 * the sliding window of sensor features, the update-rate counter, argmax with
 * a confidence threshold, majority voting over the recent predictions and the
 * change-only callback. The ONNX network is a function value supplied when
 * the engine is built; its session setup is not part of this model.
 */
module Inference {
  import opened Common
  import opened CycleValues

  /** ModelOutput: the classifier's categories and the "no gesture" value. */
  datatype Gesture =
    | Unrecognized | FlipOver | LongVibration | RotateClockwise | RotateCounterclockwise
    | ShakeBackward | ShakeForward | ShortVibration | TiltLeft | TiltRight | Still

  /** The underlying int8_t value of a category. */
  function Code(g: Gesture): (k: int)
    ensures -1 <= k <= 9
    ensures (k == -1) == (g == Unrecognized)
  {
    match g
    case Unrecognized => -1
    case FlipOver => 0
    case LongVibration => 1
    case RotateClockwise => 2
    case RotateCounterclockwise => 3
    case ShakeBackward => 4
    case ShakeForward => 5
    case ShortVibration => 6
    case TiltLeft => 7
    case TiltRight => 8
    case Still => 9
  }

  /** static_cast<ModelOutput> of a class index of the network's output. */
  function FromIndex(i: nat): (g: Gesture)
    requires i < 10
    ensures Code(g) == i
  {
    [FlipOver, LongVibration, RotateClockwise, RotateCounterclockwise, ShakeBackward,
     ShakeForward, ShortVibration, TiltLeft, TiltRight, Still][i]
  }

  lemma CodeInjective(a: Gesture, b: Gesture)
    ensures Code(a) == Code(b) ==> a == b
  {
  }

  /** The categories in increasing order of their values: the iteration order of a std::map keyed by them. */
  const ORDER: seq<Gesture> := [
    Unrecognized, FlipOver, LongVibration, RotateClockwise, RotateCounterclockwise,
    ShakeBackward, ShakeForward, ShortVibration, TiltLeft, TiltRight, Still]

  /** Every category occurs in ORDER exactly at position value + 1. */
  lemma OrderPosition(g: Gesture)
    ensures |ORDER| == 11 && ORDER[Code(g) + 1] == g
    ensures forall i :: 0 <= i < |ORDER| ==> Code(ORDER[i]) == i - 1
  {
  }

  /** LABELS: a display name for every category. */
  const LABELS: map<Gesture, string> := map[
    Unrecognized := "Unrecognized",
    ShakeForward := "Shake Forward",
    ShakeBackward := "Shake Backward",
    TiltLeft := "Tilt Left",
    TiltRight := "Tilt Right",
    FlipOver := "Flip Over",
    RotateClockwise := "Rotate Clockwise",
    RotateCounterclockwise := "Rotate Counterclockwise",
    ShortVibration := "Short Vibration",
    LongVibration := "Long Vibration",
    Still := "Still"]

  /** The label lookup never misses, and no two categories share a label. */
  lemma LabelsTotal(g: Gesture, h: Gesture)
    ensures g in LABELS
    ensures g != h ==> LABELS[g] != LABELS[h]
  {
  }

  /** std::max_element on the probabilities: the first index holding the largest value. */
  function FirstMax(probs: seq<real>): (i: nat)
    requires |probs| > 0
    ensures i < |probs|
    ensures forall k :: 0 <= k < |probs| ==> probs[k] <= probs[i]
    ensures forall k :: 0 <= k < i ==> probs[k] < probs[i]
  {
    if |probs| == 1 then 0
    else
      var j := FirstMax(probs[..|probs| - 1]);
      if probs[j] < probs[|probs| - 1] then |probs| - 1 else j
  }

  /** The raw prediction: the argmax category, or UNRECOGNIZED when its probability is below the threshold. */
  function Classify(probs: seq<real>, threshold: real): (g: Gesture)
    requires 0 < |probs| <= 10
  {
    var i := FirstMax(probs);
    if probs[i] < threshold then Unrecognized else FromIndex(i)
  }

  /** A confident maximum is reported as its category; otherwise nothing is recognised. */
  lemma ClassifyMeaning(probs: seq<real>, threshold: real, i: nat)
    requires 0 < |probs| <= 10 && i < |probs|
    ensures (Classify(probs, threshold) == Unrecognized) == (forall k :: 0 <= k < |probs| ==> probs[k] < threshold)
    ensures Classify(probs, threshold) == FromIndex(i)
      <==> threshold <= probs[i] && (forall k :: 0 <= k < |probs| ==> probs[k] <= probs[i]) && (forall k :: 0 <= k < i ==> probs[k] < probs[i])
  {
    var j := FirstMax(probs);
    if Classify(probs, threshold) == FromIndex(i) {
      CodeInjective(FromIndex(i), FromIndex(j));
    }
    if threshold <= probs[i] && (forall k :: 0 <= k < |probs| ==> probs[k] <= probs[i]) && (forall k :: 0 <= k < i ==> probs[k] < probs[i]) {
      assert !(j < i) && !(i < j);
    }
  }

  /** How often a category occurs in the prediction history. */
  function Count(history: seq<Gesture>, g: Gesture): nat
  {
    multiset(history)[g]
  }

  /**
   * The winner of the vote: it occurs, no category occurs more often, and
   * every category of smaller value occurs less often (ties go to the
   * smaller value, as max_element over the ordered map keeps the first).
   */
  predicate IsPlurality(history: seq<Gesture>, g: Gesture)
  {
    && Count(history, g) > 0
    && (forall x :: Count(history, x) <= Count(history, g))
    && (forall x :: Code(x) < Code(g) ==> Count(history, x) < Count(history, g))
  }

  /** At most one category wins. */
  lemma PluralityUnique(history: seq<Gesture>, a: Gesture, b: Gesture)
    requires IsPlurality(history, a) && IsPlurality(history, b)
    ensures a == b
  {
    CodeInjective(a, b);
  }

  /** The most frequent of the first k categories of ORDER and its count; (UNRECOGNIZED, 0) when none occurs. */
  function LeaderUpTo(history: seq<Gesture>, k: nat): (r: (Gesture, nat))
    requires k <= |ORDER|
  {
    if k == 0 then (Unrecognized, 0)
    else
      var (b, n) := LeaderUpTo(history, k - 1);
      var g := ORDER[k - 1];
      if Count(history, g) > n then (g, Count(history, g)) else (b, n)
  }

  lemma {:induction false} LeaderUpToProperties(history: seq<Gesture>, k: nat)
    requires k <= |ORDER|
    ensures var (b, n) := LeaderUpTo(history, k);
      && (forall i :: 0 <= i < k ==> Count(history, ORDER[i]) <= n)
      && (n > 0 ==> exists i :: 0 <= i < k && ORDER[i] == b)
      && (n > 0 ==> Count(history, b) == n && forall i :: 0 <= i < k && Code(ORDER[i]) < Code(b) ==> Count(history, ORDER[i]) < n)
  {
    OrderPosition(Unrecognized);
    if k > 0 {
      LeaderUpToProperties(history, k - 1);
      var (b, n) := LeaderUpTo(history, k - 1);
      var g := ORDER[k - 1];
      if Count(history, g) > n {
        assert LeaderUpTo(history, k) == (g, Count(history, g));
        forall i | 0 <= i < k && Code(ORDER[i]) < Code(g)
          ensures Count(history, ORDER[i]) < Count(history, g)
        {
          assert i < k - 1;
        }
      }
    }
  }

  /** The consensus candidate of a history: the leader over all categories. */
  function Leader(history: seq<Gesture>): (r: (Gesture, nat))
  {
    LeaderUpTo(history, |ORDER|)
  }

  /** A non-empty history has a winner, and it is the leader. */
  lemma LeaderIsPlurality(history: seq<Gesture>)
    requires |history| > 0
    ensures IsPlurality(history, Leader(history).0) && Leader(history).1 == Count(history, Leader(history).0)
  {
    LeaderUpToProperties(history, |ORDER|);
    var (b, n) := Leader(history);
    var h0 := history[0];
    OrderPosition(h0);
    assert h0 in multiset(history);
    assert Count(history, h0) > 0;
    forall x
      ensures Count(history, x) <= n
    {
      OrderPosition(x);
    }
    forall x | Code(x) < Code(b)
      ensures Count(history, x) < n
    {
      OrderPosition(x);
    }
  }

  /** The vote's outcome: the winner when it has at least minVotes, otherwise UNRECOGNIZED. */
  function Decide(history: seq<Gesture>, minVotes: nat): Gesture
  {
    var (b, n) := Leader(history);
    if n >= minVotes then b else Unrecognized
  }

  /** The vote yields the unique winner when it has enough votes, and UNRECOGNIZED otherwise. */
  lemma DecideMeaning(history: seq<Gesture>, minVotes: nat, g: Gesture)
    requires IsPlurality(history, g)
    ensures Decide(history, minVotes) == if Count(history, g) >= minVotes then g else Unrecognized
  {
    LeaderIsPlurality(history);
    PluralityUnique(history, g, Leader(history).0);
  }

  /** Two distinct categories together occur at most as often as the history is long. */
  lemma {:induction false} CountPair(history: seq<Gesture>, a: Gesture, b: Gesture)
    requires a != b
    ensures Count(history, a) + Count(history, b) <= |history|
  {
    if |history| > 0 {
      var rest := history[..|history| - 1];
      assert history == rest + [history[|history| - 1]];
      CountPair(rest, a, b);
    }
  }

  /** A category predicted more than half of the time wins the vote, given enough votes. */
  lemma MajorityWins(history: seq<Gesture>, minVotes: nat, g: Gesture)
    requires 2 * Count(history, g) > |history|
    ensures Decide(history, minVotes) == if Count(history, g) >= minVotes then g else Unrecognized
  {
    forall x | x != g
      ensures Count(history, x) < Count(history, g)
    {
      CountPair(history, x, g);
    }
    DecideMeaning(history, minVotes, g);
  }

  /** The history after one prediction: appended, and the oldest dropped beyond the bound. */
  function Pushed(history: seq<Gesture>, g: Gesture, size: nat): (h: seq<Gesture>)
    ensures |history| <= size ==> |h| <= size
    ensures h == history + [g] || h == (history + [g])[1..]
    ensures size > 0 ==> |h| > 0 && h[|h| - 1] == g
  {
    var h := history + [g];
    if |h| > size then h[1..] else h
  }

  /** The window after appending: the newest n values when there are more. */
  function Window(s: seq<real>, n: nat): (w: seq<real>)
    ensures |w| <= n || w == s
    ensures |w| == if |s| > n then n else |s|
    ensures w == s[|s| - |w|..]
  {
    if |s| > n then s[|s| - n..] else s
  }

  /** The eight features of one sample, in the network's order. */
  function Features(pitch: real, roll: real, gyro: Vector3, accel: Vector3): (v: seq<real>)
    ensures |v| == 8
  {
    [pitch, roll, gyro.x, gyro.y, gyro.z, accel.x / GRAVITY, accel.y / GRAVITY, accel.z / GRAVITY]
  }

  /**
   * The update-rate counter after k samples from 0 (one InferenceTask
   * iteration each): a sample triggers inference when the counter, before
   * its post-increment, has reached `every`.
   */
  function CounterAfter(k: nat, every: int): int
  {
    if k == 0 then 0
    else
      var c := CounterAfter(k - 1, every);
      if c >= every then 0 else c + 1
  }

  /** From 0 the counter climbs by one per sample up to `every`, never beyond. */
  lemma {:induction false} CounterClimbs(k: nat, every: nat)
    ensures 0 <= CounterAfter(k, every) <= every
    ensures k <= every ==> CounterAfter(k, every) == k
  {
    if k > 0 {
      CounterClimbs(k - 1, every);
    }
  }

  /**
   * The counter repeats with period every + 1, and within a period only its
   * last sample (the one reaching `every`) triggers an inference.
   */
  lemma {:induction false} CounterPeriodic(k: nat, every: nat)
    ensures CounterAfter(k + every + 1, every) == CounterAfter(k, every)
    ensures (CounterAfter(k, every) >= every) == (CounterAfter(k, every) == every)
  {
    CounterClimbs(k, every);
    if k == 0 {
      CounterClimbs(every, every);
    } else {
      CounterPeriodic(k - 1, every);
    }
  }

  class InferenceEngine {
    /** The network: feature window to class probabilities. */
    const model: seq<real> -> seq<real>
    /** input_tensor_size_. */
    const inputSize: nat
    /** new_data_number_: samples skipped between two inferences. */
    const newDataNumber: int
    const threshold: real
    const historySize: nat
    const minVotes: nat

    var sensorBuffer: seq<real>
    var history: seq<Gesture>
    var updateCounter: int
    /** The function-local static last_result of InferenceTask. */
    var lastResult: Gesture
    /** Whether a callback is registered, and what it has been given so far. */
    var hasCallback: bool
    var reported: seq<Gesture>

    var pitch: real
    var roll: real
    var gyro: Vector3
    var accel: Vector3

    /** The network yields between one and ten probabilities for a full window. */
    ghost predicate ModelShaped()
    {
      forall input :: |input| == inputSize ==> 0 < |model(input)| <= 10
    }

    /** The network is well shaped, the history keeps at least one entry, and neither queue exceeds its bound. */
    ghost predicate Valid()
      reads this
    {
      && ModelShaped()
      && historySize > 0
      && |sensorBuffer| <= inputSize
      && |history| <= historySize
    }

    /**
     * The engine for a network with the given input size and second input
     * dimension: new_data_number_ is the truncated product of that dimension
     * and the update ratio.
     */
    constructor (model: seq<real> -> seq<real>, inputSize: nat, rows: nat, updateRatio: real,
                 threshold: real, historySize: nat, minVotes: nat)
      requires forall input :: |input| == inputSize ==> 0 < |model(input)| <= 10
      requires historySize > 0
      ensures Valid()
      ensures this.model == model && this.inputSize == inputSize && this.threshold == threshold
      ensures this.historySize == historySize && this.minVotes == minVotes
      ensures newDataNumber == Trunc(rows as real * updateRatio)
      ensures sensorBuffer == [] && history == [] && updateCounter == 0
      ensures lastResult == Unrecognized && !hasCallback && reported == []
    {
      this.model := model;
      this.inputSize := inputSize;
      this.threshold := threshold;
      this.historySize := historySize;
      this.minVotes := minVotes;
      newDataNumber := Trunc(rows as real * updateRatio);
      sensorBuffer := [];
      history := [];
      updateCounter := 0;
      lastResult := Unrecognized;
      hasCallback := false;
      reported := [];
      pitch, roll := 0.0, 0.0;
      gyro, accel := Vector3(0.0, 0.0, 0.0), Vector3(0.0, 0.0, 0.0);
    }

    method RegisterDataCallback()
      modifies this`hasCallback
      ensures hasCallback
    {
      hasCallback := true;
    }

    /** OnData: the newest attitude and inertial readings (the semaphore release is not modelled). */
    method OnData(accel: Vector3, gyro: Vector3, pitch: real, roll: real)
      modifies this`accel, this`gyro, this`pitch, this`roll
      ensures this.accel == accel && this.gyro == gyro && this.pitch == pitch && this.roll == roll
    {
      this.accel := accel;
      this.gyro := gyro;
      this.pitch := pitch;
      this.roll := roll;
    }

    /** CollectSensorData: appends the eight features and trims the window from the front. */
    method CollectSensorData()
      modifies this`sensorBuffer
      ensures sensorBuffer == Window(old(sensorBuffer) + Features(pitch, roll, gyro, accel), inputSize)
    {
      var s := Features(pitch, roll, gyro, accel);
      sensorBuffer := sensorBuffer + s;
      ghost var full := sensorBuffer;
      while |sensorBuffer| > inputSize
        invariant |sensorBuffer| <= |full| && sensorBuffer == full[|full| - |sensorBuffer|..]
        invariant |full| > inputSize ==> |sensorBuffer| >= inputSize
        invariant |full| <= inputSize ==> sensorBuffer == full
        decreases |sensorBuffer|
      {
        sensorBuffer := sensorBuffer[1..];
      }
    }

    /** The vote count of every category in the history: the loop that fills the votes map. */
    static method CountVotes(history: seq<Gesture>) returns (votes: map<Gesture, nat>)
      ensures forall g :: g in votes <==> Count(history, g) > 0
      ensures forall g :: g in votes ==> votes[g] == Count(history, g)
    {
      votes := map[];
      for i := 0 to |history|
        invariant forall g :: g in votes <==> Count(history[..i], g) > 0
        invariant forall g :: g in votes ==> votes[g] == Count(history[..i], g)
      {
        var p := history[i];
        assert history[..i + 1] == history[..i] + [p];
        var c := if p in votes then votes[p] else 0;
        votes := votes[p := c + 1];
      }
      assert history[..|history|] == history;
    }

    /** max_element over the votes map in key order: the first category with the most votes. */
    static method Consensus(history: seq<Gesture>, votes: map<Gesture, nat>) returns (best: Gesture, n: nat)
      requires forall g :: g in votes <==> Count(history, g) > 0
      requires forall g :: g in votes ==> votes[g] == Count(history, g)
      ensures (best, n) == Leader(history)
    {
      best, n := Unrecognized, 0;
      for k := 0 to |ORDER|
        invariant (best, n) == LeaderUpTo(history, k)
      {
        var g := ORDER[k];
        if g in votes && votes[g] > n {
          best, n := g, votes[g];
        }
      }
    }

    /**
     * RunInference after the network has run: classify, record the
     * prediction, and return the voted result.
     */
    method RunInference(input: seq<real>) returns (result: Gesture)
      requires Valid() && |input| == inputSize
      modifies this`history
      ensures history == Pushed(old(history), Classify(model(input), threshold), historySize)
      ensures result == Decide(history, minVotes)
      ensures Valid()
    {
      var probs := model(input);
      var predClass := FirstMax(probs);
      var prediction := if probs[predClass] < threshold then Unrecognized else FromIndex(predClass);
      history := history + [prediction];
      if |history| > historySize {
        history := history[1..];
      }
      var votes := CountVotes(history);
      var best, n := Consensus(history, votes);
      result := if n >= minVotes then best else Unrecognized;
    }

    /** Whether the sample whose window is `buffer`, taken with counter value `counter`, runs the network. */
    predicate Runs(buffer: seq<real>, counter: int)
    {
      counter >= newDataNumber && |buffer| >= inputSize
    }

    /** The prediction history after a sample, from the history before it. */
    function HistoryAfter(buffer: seq<real>, history0: seq<Gesture>, counter: int): seq<Gesture>
      requires ModelShaped()
    {
      if Runs(buffer, counter) then Pushed(history0, Classify(model(buffer[..inputSize]), threshold), historySize)
      else history0
    }

    /** Whether a sample reports a gesture to the callback: it ran, and the vote is a gesture other than the last one. */
    predicate Reports(buffer: seq<real>, history: seq<Gesture>, counter: int, last0: Gesture)
    {
      Runs(buffer, counter) && last0 != Decide(history, minVotes) && Decide(history, minVotes) != Unrecognized
    }

    /** One iteration of InferenceTask after the semaphore is acquired. */
    method InferenceStep()
      requires Valid()
      modifies this`sensorBuffer, this`history, this`updateCounter, this`lastResult, this`reported
      ensures Valid()
      ensures sensorBuffer == Window(old(sensorBuffer) + Features(pitch, roll, gyro, accel), inputSize)
      ensures updateCounter == if old(updateCounter) >= newDataNumber then 0 else old(updateCounter) + 1
      ensures history == HistoryAfter(sensorBuffer, old(history), old(updateCounter))
      ensures var report := Reports(sensorBuffer, history, old(updateCounter), old(lastResult));
        && lastResult == (if report then Decide(history, minVotes) else old(lastResult))
        && reported == old(reported) + (if report && hasCallback then [Decide(history, minVotes)] else [])
    {
      CollectSensorData();
      Tick();
    }

    /** The rest of an InferenceTask iteration once the sample is in the window: the counter, and inference when it fires. */
    method Tick()
      requires Valid()
      modifies this`history, this`updateCounter, this`lastResult, this`reported
      ensures Valid()
      ensures updateCounter == if old(updateCounter) >= newDataNumber then 0 else old(updateCounter) + 1
      ensures history == HistoryAfter(sensorBuffer, old(history), old(updateCounter))
      ensures var report := Reports(sensorBuffer, history, old(updateCounter), old(lastResult));
        && lastResult == (if report then Decide(history, minVotes) else old(lastResult))
        && reported == old(reported) + (if report && hasCallback then [Decide(history, minVotes)] else [])
    {
      var fire := updateCounter >= newDataNumber;
      updateCounter := updateCounter + 1;
      if fire {
        updateCounter := 0;
        if |sensorBuffer| >= inputSize {
          var input := sensorBuffer[..inputSize];
          var result := RunInference(input);
          Report(result);
        }
      }
    }

    /** Hands a voted result to the callback when it differs from the last one reported and is a gesture. */
    method Report(result: Gesture)
      modifies this`lastResult, this`reported
      ensures var report := old(lastResult) != result && result != Unrecognized;
        && lastResult == (if report then result else old(lastResult))
        && reported == old(reported) + (if report && hasCallback then [result] else [])
    {
      if lastResult != result && result != Unrecognized {
        lastResult := result;
        if hasCallback {
          reported := reported + [result];
        }
      }
    }
  }
}
