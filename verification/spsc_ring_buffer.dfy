/** The single-producer single-consumer queue of include/spsc_ring_buffer.h. */
module SpscRing {
  import opened Arithmetic

  // ---------------------------------------------------------------------------
  // The component, called by one thread at a time
  // ---------------------------------------------------------------------------

  class SpscRingBuffer<T(0)> {
    const slots: nat
    const buffer: array<T>
    var head: nat
    var tail: nat

    ghost predicate Valid()
      reads this
    {
      slots == buffer.Length && head < slots && tail < slots
    }

    ghost function Contents(): seq<T>
      requires Valid()
      reads this, buffer
    {
      if tail <= head then buffer[tail..head] else buffer[tail..] + buffer[..head]
    }

    constructor (capacity: nat)
      ensures Valid() && fresh(buffer) && slots == capacity + 1 && Contents() == []
    {
      slots := capacity + 1;
      buffer := new T[capacity + 1];
      head, tail := 0, 0;
    }

    method Increment(index: nat) returns (next: nat)
      requires index < slots
      ensures next == (if index + 1 == slots then 0 else index + 1)
    {
      next := (index + 1) % slots;
    }

    method TryPush(value: T) returns (ok: bool)
      requires Valid()
      modifies this, buffer
      ensures Valid()
      ensures ok <==> |old(Contents())| < slots - 1
      ensures Contents() == if ok then old(Contents()) + [value] else old(Contents())
    {
      var nextHead := Increment(head);
      if nextHead == tail {
        return false;
      }
      buffer[head] := value;
      head := nextHead;
      return true;
    }

    method TryPop(default: T) returns (ok: bool, value: T)
      requires Valid()
      modifies this
      ensures Valid()
      ensures ok <==> old(Contents()) != []
      ensures ok ==> [value] + Contents() == old(Contents())
      ensures !ok ==> value == default && Contents() == old(Contents())
    {
      if tail == head {
        return false, default;
      }
      value := buffer[tail];
      var next := Increment(tail);
      tail := next;
      return true, value;
    }

    method Empty() returns (b: bool)
      requires Valid()
      ensures b <==> Contents() == []
    {
      b := head == tail;
    }

    method Capacity() returns (n: nat)
      requires Valid()
      ensures n == slots - 1
    {
      n := slots - 1;
    }
  }

  // ---------------------------------------------------------------------------
  // The same code as atomic steps of two threads
  // ---------------------------------------------------------------------------

  /** Where the producer stands in `try_push(value)`: before its load of the consumer's cursor, before
      the slot write, before the store of its own cursor. */
  datatype Producer<T> = Between | Checking(value: T) | Writing(value: T) | Storing(value: T)

  /** Where the consumer stands in `try_pop`. */
  datatype Consumer<T> = Away | Looking | Reading | Releasing(value: T)

  /** `head` and `tail` are the physical cursors. `pushed` and `popped` record all completed operations,
      so the j-th value a cursor ever held is j % slots; `seenTail` and `seenHead` number the latest
      cursor value each thread has observed of the other. */
  datatype Ring<T> = Ring(
    slots: nat, buffer: seq<T>, head: nat, tail: nat,
    producer: Producer<T>, consumer: Consumer<T>,
    pushed: seq<T>, popped: seq<T>, seenTail: nat, seenHead: nat)

  /** A load names the version of the other cursor it returns: any from the last one seen to the newest. */
  datatype Action<T> =
    | PushBegin(value: T) | PushLoad(version: nat) | PushWrite | PushStore
    | PopBegin | PopLoad(version: nat) | PopRead | PopStore

  ghost predicate Shape<T>(r: Ring<T>) {
    r.slots > 0 && |r.buffer| == r.slots && r.head < r.slots && r.tail < r.slots
  }

  predicate Enabled<T>(r: Ring<T>, a: Action<T>) {
    match a
    case PushBegin(_) => r.producer.Between?
    case PushLoad(j) => r.producer.Checking? && r.seenTail <= j <= |r.popped|
    case PushWrite => r.producer.Writing?
    case PushStore => r.producer.Storing?
    case PopBegin => r.consumer.Away?
    case PopLoad(j) => r.consumer.Looking? && r.seenHead <= j <= |r.pushed|
    case PopRead => r.consumer.Reading?
    case PopStore => r.consumer.Releasing?
  }

  /** One atomic step; an action that is not enabled leaves the ring alone. */
  function Step<T>(r: Ring<T>, a: Action<T>): Ring<T>
    requires r.slots > 0 && |r.buffer| == r.slots && r.head < r.slots && r.tail < r.slots
  {
    if !Enabled(r, a) then r
    else
      match a
      case PushBegin(v) => r.(producer := Checking(v))
      case PushLoad(j) =>
        if (r.head + 1) % r.slots == j % r.slots then r.(producer := Between, seenTail := j)
        else r.(producer := Writing(r.producer.value), seenTail := j)
      case PushWrite => r.(buffer := r.buffer[r.head := r.producer.value], producer := Storing(r.producer.value))
      case PushStore =>
        r.(head := (r.head + 1) % r.slots, producer := Between, pushed := r.pushed + [r.producer.value])
      case PopBegin => r.(consumer := Looking)
      case PopLoad(j) =>
        if r.tail == j % r.slots then r.(consumer := Away, seenHead := j)
        else r.(consumer := Reading, seenHead := j)
      case PopRead => r.(consumer := Releasing(r.buffer[r.tail]))
      case PopStore =>
        r.(tail := (r.tail + 1) % r.slots, consumer := Away, popped := r.popped + [r.consumer.value])
  }

  function Start<T>(buffer: seq<T>): Ring<T> {
    Ring(|buffer|, buffer, 0, 0, Between, Away, [], [], 0, 0)
  }

  // ---------------------------------------------------------------------------
  // Modular facts
  // ---------------------------------------------------------------------------

  lemma SameSlot(a: int, b: int, n: int)
    requires n > 0 && a <= b < a + n
    ensures a % n == b % n <==> a == b
  {
    DivBounds(a, n);
    DivBounds(b, n);
    if a % n == b % n {
      var d := b / n - a / n;
      assert b - a == n * d;
      if d > 0 { MulLe(1, d, n); }
      if d < 0 { MulLe(d, -1, n); }
    }
  }

  lemma ShiftMod(x: int, q: int, n: int)
    requires n > 0
    ensures (x + n * q) % n == x % n
  {
    var y := x + n * q;
    DivBounds(x, n);
    DivIs(y, n, x / n + q);
  }

  lemma NextSlot(a: int, n: int)
    requires n > 0
    ensures (a % n + 1) % n == (a + 1) % n
  {
    var q := a / n;
    assert a == n * q + a % n;
    ShiftMod(a % n + 1, q, n);
  }

  // ---------------------------------------------------------------------------
  // The invariant of every interleaving
  // ---------------------------------------------------------------------------

  ghost predicate Inv<T>(r: Ring<T>) {
    && Shape(r)
    && r.popped <= r.pushed
    && r.head == |r.pushed| % r.slots && r.tail == |r.popped| % r.slots
    && r.seenTail <= |r.popped| <= r.seenHead <= |r.pushed| < r.seenTail + r.slots
    && (forall i :: |r.popped| <= i < |r.pushed| ==> r.buffer[i % r.slots] == r.pushed[i])
    && (r.producer.Writing? || r.producer.Storing? ==> |r.pushed| + 1 < r.seenTail + r.slots)
    && (r.producer.Storing? ==> r.buffer[r.head] == r.producer.value)
    && (r.consumer.Reading? || r.consumer.Releasing? ==> |r.popped| < r.seenHead)
    && (r.consumer.Releasing? ==> r.consumer.value == r.pushed[|r.popped|])
  }

  lemma PushLoadKeeps<T>(r: Ring<T>, j: nat)
    requires Inv(r) && Enabled(r, PushLoad(j))
    ensures Inv(Step(r, PushLoad(j)))
    ensures Step(r, PushLoad(j)).producer.Between? <==> |r.pushed| - j == r.slots - 1
  {
    NextSlot(|r.pushed|, r.slots);
    ShiftMod(j, 1, r.slots);
    SameSlot(|r.pushed| + 1, j + r.slots, r.slots);
  }

  lemma PushWriteKeeps<T>(r: Ring<T>)
    requires Inv(r) && Enabled(r, PushWrite)
    ensures Inv(Step(r, PushWrite))
  {
    var n := Step(r, PushWrite);
    forall i | |r.popped| <= i < |r.pushed|
      ensures n.buffer[i % r.slots] == r.pushed[i]
    {
      SameSlot(i, |r.pushed|, r.slots);
    }
  }

  lemma PushStoreKeeps<T>(r: Ring<T>)
    requires Inv(r) && Enabled(r, PushStore)
    ensures Inv(Step(r, PushStore))
  {
    NextSlot(|r.pushed|, r.slots);
  }

  lemma PopLoadKeeps<T>(r: Ring<T>, j: nat)
    requires Inv(r) && Enabled(r, PopLoad(j))
    ensures Inv(Step(r, PopLoad(j)))
    ensures Step(r, PopLoad(j)).consumer.Away? <==> j == |r.popped|
  {
    SameSlot(|r.popped|, j, r.slots);
  }

  lemma PopStoreKeeps<T>(r: Ring<T>)
    requires Inv(r) && Enabled(r, PopStore)
    ensures Inv(Step(r, PopStore))
  {
    NextSlot(|r.popped|, r.slots);
  }

  lemma StepKeeps<T>(r: Ring<T>, a: Action<T>)
    requires Inv(r)
    ensures Inv(Step(r, a))
    ensures Step(r, a).slots == r.slots
  {
    if Enabled(r, a) {
      match a
      case PushBegin(_) =>
      case PushLoad(j) => PushLoadKeeps(r, j);
      case PushWrite => PushWriteKeeps(r);
      case PushStore => PushStoreKeeps(r);
      case PopBegin =>
      case PopLoad(j) => PopLoadKeeps(r, j);
      case PopRead =>
      case PopStore => PopStoreKeeps(r);
    }
  }

  /** The ring after any interleaving of steps of the two threads. */
  ghost function Interleaved<T>(r: Ring<T>, actions: seq<Action<T>>): (e: Ring<T>)
    requires Inv(r)
    ensures Inv(e) && e.slots == r.slots
  {
    if actions == [] then r
    else
      var prior := Interleaved(r, actions[..|actions| - 1]);
      StepKeeps(prior, actions[|actions| - 1]);
      Step(prior, actions[|actions| - 1])
  }

  /** Every interleaving, with cursors read as stale as the memory order allows: pops return a prefix of
      the pushes, the queue never holds more than its capacity, and the slot being written is neither the
      slot being read nor one that still holds an unread value. */
  lemma EveryInterleavingIsFifo<T>(buffer: seq<T>, actions: seq<Action<T>>)
    requires |buffer| > 0
    ensures Inv(Start(buffer))
    ensures var r := Interleaved(Start(buffer), actions);
      && r.popped <= r.pushed
      && |r.pushed| - |r.popped| <= |buffer| - 1
      && (r.producer.Writing? ==> forall i :: |r.popped| <= i < |r.pushed| ==> i % r.slots != r.head)
      && (r.producer.Writing? && r.consumer.Reading? ==> r.head != r.tail)
  {
    var r := Interleaved(Start(buffer), actions);
    SameSlot(|r.popped|, |r.pushed|, r.slots);
    forall i | |r.popped| <= i < |r.pushed|
      ensures i % r.slots != r.head
    {
      SameSlot(i, |r.pushed|, r.slots);
    }
  }

  /** A push that is not disturbed completes: it appends its value, or gives up on a full queue. */
  lemma PushCompletes<T>(r: Ring<T>, value: T)
    requires Inv(r) && r.producer.Between?
    ensures var begun := Step(r, PushBegin(value));
      Inv(begun) && Enabled(begun, PushLoad(|r.popped|))
    ensures var loaded := Step(Step(r, PushBegin(value)), PushLoad(|r.popped|));
      if |r.pushed| - |r.popped| == r.slots - 1 then loaded.producer.Between? && loaded.pushed == r.pushed
      else
        Inv(loaded) && Inv(Step(loaded, PushWrite)) &&
        var e := Step(Step(loaded, PushWrite), PushStore);
        e.producer.Between? && e.pushed == r.pushed + [value] && e.popped == r.popped
  {
    var begun := Step(r, PushBegin(value));
    StepKeeps(r, PushBegin(value));
    StepKeeps(begun, PushLoad(|r.popped|));
    PushLoadKeeps(begun, |r.popped|);
    var loaded := Step(begun, PushLoad(|r.popped|));
    StepKeeps(loaded, PushWrite);
  }

  /** So does a pop: it takes the oldest value, or finds the queue empty. */
  lemma PopCompletes<T>(r: Ring<T>)
    requires Inv(r) && r.consumer.Away?
    ensures var begun := Step(r, PopBegin);
      Inv(begun) && Enabled(begun, PopLoad(|r.pushed|))
    ensures var loaded := Step(Step(r, PopBegin), PopLoad(|r.pushed|));
      if r.popped == r.pushed then loaded.consumer.Away? && loaded.popped == r.popped
      else
        Inv(loaded) && Inv(Step(loaded, PopRead)) &&
        var e := Step(Step(loaded, PopRead), PopStore);
        e.consumer.Away? && e.pushed == r.pushed && |r.popped| < |r.pushed| && e.popped == r.popped + [r.pushed[|r.popped|]]
  {
    var begun := Step(r, PopBegin);
    StepKeeps(r, PopBegin);
    StepKeeps(begun, PopLoad(|r.pushed|));
    PopLoadKeeps(begun, |r.pushed|);
    var loaded := Step(begun, PopLoad(|r.pushed|));
    StepKeeps(loaded, PopRead);
  }
}
