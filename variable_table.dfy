/**
 * The batch `Get*` / `Set*` loops of FMI 2.0 section 2.1.7 ("Getting and
 * Setting Variable Values") over one of the component's fixed-size variable
 * arrays. Each reference in `vr` is checked against the array's bound in the
 * order given; the first one out of range ends the call with `Error`, after
 * the entries before it have already been read or written.
 */
module VariableTable {
  import opened Fmi

  /** The index of the first reference that is not below `bound`, or `|vr|` if there is none. */
  function FirstOutOfRange(vr: seq<nat>, bound: nat): (k: nat)
    ensures k <= |vr|
    ensures forall i :: 0 <= i < k ==> vr[i] < bound
    ensures k < |vr| ==> vr[k] >= bound
  {
    if |vr| == 0 then 0
    else if vr[0] >= bound then 0
    else 1 + FirstOutOfRange(vr[1..], bound)
  }

  /** The status a batch call returns: OK exactly when every reference is in range. */
  function BatchStatus(vr: seq<nat>, bound: nat): (s: Status)
    ensures s == OK <==> forall i :: 0 <= i < |vr| ==> vr[i] < bound
    ensures s != OK ==> s == Error
  {
    if FirstOutOfRange(vr, bound) == |vr| then OK else Error
  }

  /** The slots after writing `values[i]` to slot `vr[i]` for each `i` in turn. */
  function ApplyWrites<T>(slots: seq<T>, vr: seq<nat>, values: seq<T>): (r: seq<T>)
    requires |vr| == |values|
    requires forall i :: 0 <= i < |vr| ==> vr[i] < |slots|
    ensures |r| == |slots|
    decreases |vr|
  {
    if |vr| == 0 then slots
    else
      var n := |vr| - 1;
      ApplyWrites(slots, vr[..n], values[..n])[vr[n] := values[n]]
  }

  /** A slot that no reference names keeps its value. */
  lemma {:induction false} ApplyWritesUntouched<T>(slots: seq<T>, vr: seq<nat>, values: seq<T>, j: nat)
    requires |vr| == |values|
    requires forall i :: 0 <= i < |vr| ==> vr[i] < |slots|
    requires j < |slots|
    requires forall i :: 0 <= i < |vr| ==> vr[i] != j
    ensures ApplyWrites(slots, vr, values)[j] == slots[j]
    decreases |vr|
  {
    if |vr| > 0 {
      var n := |vr| - 1;
      ApplyWritesUntouched(slots, vr[..n], values[..n], j);
    }
  }

  /** For a slot named several times, the last write wins. */
  lemma {:induction false} ApplyWritesLastWins<T>(slots: seq<T>, vr: seq<nat>, values: seq<T>, i: nat)
    requires |vr| == |values|
    requires forall k :: 0 <= k < |vr| ==> vr[k] < |slots|
    requires i < |vr|
    requires forall k :: i < k < |vr| ==> vr[k] != vr[i]
    ensures ApplyWrites(slots, vr, values)[vr[i]] == values[i]
    decreases |vr|
  {
    var n := |vr| - 1;
    if i < n {
      ApplyWritesLastWins(slots, vr[..n], values[..n], i);
    }
  }

  /** `Get*`: copy `slots[vr[i]]` into `value[i]` until the first reference out of range. */
  method GetSlots<T>(slots: array<T>, vr: seq<nat>, value: array<T>) returns (status: Status)
    requires |vr| <= value.Length
    requires value != slots
    modifies value
    ensures status == BatchStatus(vr, slots.Length)
    ensures var k := FirstOutOfRange(vr, slots.Length);
      && (forall i :: 0 <= i < k ==> value[i] == slots[vr[i]])
      && (forall i :: k <= i < value.Length ==> value[i] == old(value[i]))
  {
    var k := FirstOutOfRange(vr, slots.Length);
    var i := 0;
    while i < |vr|
      invariant 0 <= i <= k
      invariant forall j :: 0 <= j < i ==> value[j] == slots[vr[j]]
      invariant forall j :: i <= j < value.Length ==> value[j] == old(value[j])
    {
      if vr[i] < slots.Length {
        value[i] := slots[vr[i]];
      } else {
        return Error;
      }
      i := i + 1;
    }
    return OK;
  }

  /** `Set*`: write `value[i]` into `slots[vr[i]]` until the first reference out of range. */
  method SetSlots<T>(slots: array<T>, vr: seq<nat>, value: seq<T>) returns (status: Status)
    requires |vr| == |value|
    modifies slots
    ensures status == BatchStatus(vr, slots.Length)
    ensures var k := FirstOutOfRange(vr, slots.Length);
      slots[..] == ApplyWrites(old(slots[..]), vr[..k], value[..k])
  {
    ghost var k := FirstOutOfRange(vr, slots.Length);
    var i := 0;
    while i < |vr|
      invariant 0 <= i <= k
      invariant slots[..] == ApplyWrites(old(slots[..]), vr[..i], value[..i])
    {
      if vr[i] < slots.Length {
        slots[vr[i]] := value[i];
        assert vr[..i + 1][..i] == vr[..i];
        assert value[..i + 1][..i] == value[..i];
      } else {
        return Error;
      }
      i := i + 1;
    }
    assert vr[..i] == vr;
    return OK;
  }

  /** One of `DoInit`'s range-for loops: every slot of the array gets `v`. */
  method Fill<T>(slots: array<T>, v: T)
    modifies slots
    ensures forall i :: 0 <= i < slots.Length ==> slots[i] == v
  {
    var i := 0;
    while i < slots.Length
      invariant 0 <= i <= slots.Length
      invariant forall j :: 0 <= j < i ==> slots[j] == v
    {
      slots[i] := v;
      i := i + 1;
    }
  }
}
