/** The Adjustable debugging helper: a list of tunable float variables, one of
    which is selected by its key and nudged up or down with the arrow keys.
    The source stores the address of each float; here every float lives in a
    `store` array and a record holds the index of its float. */
module Adjustables {

  /** GLUT's codes for the arrow keys passed to the special-key callback. */
  const GlutKeyLeft: int := 100
  const GlutKeyUp: int := 101
  const GlutKeyRight: int := 102
  const GlutKeyDown: int := 103

  /** GLUT's modifier bit for the shift key. */
  const GlutActiveShift: int := 1

  /** An `unsigned char` key code. */
  type Byte = x: int | 0 <= x < 256

  /** One registered variable: where its float lives, its description, the key
      that selects it and its two step sizes. */
  datatype AdjustableVariable = AdjustableVariable(
    target: nat, desc: string, key: Byte, smallAdjust: real, largeAdjust: real)

  /** The index `key` leaves selected: the last record whose key matches,
      or `current` when none does. */
  function Pick(vars: seq<AdjustableVariable>, key: Byte, current: int): (r: int)
    ensures r == current || (0 <= r < |vars| && vars[r].key == key)
    ensures forall j :: 0 <= j < |vars| && vars[j].key == key ==>
              j <= r < |vars| && vars[r].key == key
    ensures (forall j :: 0 <= j < |vars| ==> vars[j].key != key) ==> r == current
  {
    if |vars| == 0 then current
    else if vars[|vars| - 1].key == key then |vars| - 1
    else Pick(vars[..|vars| - 1], key, current)
  }

  /** The step the arrow keys apply: largeAdjust exactly when the modifier
      state is shift alone. */
  function Step(v: AdjustableVariable, modifiers: int): (d: real)
    ensures modifiers == GlutActiveShift ==> d == v.largeAdjust
    ensures modifiers != GlutActiveShift ==> d == v.smallAdjust
  {
    if modifiers == GlutActiveShift then v.largeAdjust else v.smallAdjust
  }

  /** Whether the special-key handler acts on `key`. */
  predicate Handles(key: int) {
    key == GlutKeyUp || key == GlutKeyDown
  }

  /** The store after an arrow key with step d on the float at `target`. */
  function Adjusted(store: seq<real>, target: nat, key: int, d: real): (s: seq<real>)
    requires target < |store|
    ensures |s| == |store|
    ensures forall i :: 0 <= i < |store| && i != target ==> s[i] == store[i]
    ensures key == GlutKeyUp ==> s[target] == store[target] + d
    ensures key == GlutKeyDown ==> s[target] == store[target] - d
    ensures !Handles(key) ==> s == store
  {
    if key == GlutKeyUp then store[target := store[target] + d]
    else if key == GlutKeyDown then store[target := store[target] - d]
    else store
  }

  /** DOWN undoes UP and UP undoes DOWN, with the same modifier state. */
  lemma UpDownCancel(store: seq<real>, target: nat, d: real)
    requires target < |store|
    ensures Adjusted(Adjusted(store, target, GlutKeyUp, d), target, GlutKeyDown, d) == store
    ensures Adjusted(Adjusted(store, target, GlutKeyDown, d), target, GlutKeyUp, d) == store
  {
    var up := Adjusted(store, target, GlutKeyUp, d);
    assert Adjusted(up, target, GlutKeyDown, d)[target] == store[target];
    var down := Adjusted(store, target, GlutKeyDown, d);
    assert Adjusted(down, target, GlutKeyUp, d)[target] == store[target];
  }

  class Adjustable {
    var mVars: seq<AdjustableVariable>
    /** The selected record; the source leaves it uninitialised, so its first
        value is whatever the caller passes as `garbage`. */
    var mCurrent: int

    constructor (garbage: nat)
      ensures mVars == [] && mCurrent == garbage
    {
      mVars := [];
      mCurrent := garbage;
    }

    /** add: appends one record and leaves the others and the selection alone. */
    method Add(target: nat, key: Byte, desc: string, smallAdjust: real, largeAdjust: real)
      modifies this
      ensures mVars == old(mVars) + [AdjustableVariable(target, desc, key, smallAdjust, largeAdjust)]
      ensures mCurrent == old(mCurrent)
    {
      mVars := mVars + [AdjustableVariable(target, desc, key, smallAdjust, largeAdjust)];
    }

    /** key: scans every record and selects the last one whose key matches. */
    method Key(key: Byte)
      modifies this
      ensures mVars == old(mVars)
      ensures mCurrent == Pick(mVars, key, old(mCurrent))
    {
      var pick := mCurrent;
      var i := 0;
      while i < |mVars|
        invariant 0 <= i <= |mVars|
        invariant pick == Pick(mVars[..i], key, mCurrent)
      {
        assert mVars[..i + 1][..i] == mVars[..i];
        if mVars[i].key == key {
          pick := i;
        }
        i := i + 1;
      }
      assert mVars[..i] == mVars;
      if pick != mCurrent {
        mCurrent := pick;
      }
    }

    /** specialKey: UP adds and DOWN subtracts the selected record's step from
        its float and the record's description is returned; anything else,
        or an empty list, changes nothing and returns "". The source reads
        mVars[mCurrent] unchecked, hence the bound on mCurrent. */
    method SpecialKey(key: int, modifiers: int, store: array<real>) returns (changedDesc: string)
      requires |mVars| > 0 ==> 0 <= mCurrent < |mVars| && mVars[mCurrent].target < store.Length
      modifies store
      ensures |mVars| == 0 ==> store[..] == old(store[..]) && changedDesc == ""
      ensures |mVars| > 0 ==>
                store[..] == Adjusted(old(store[..]), mVars[mCurrent].target, key,
                                      Step(mVars[mCurrent], modifiers))
      ensures |mVars| > 0 && Handles(key) ==> changedDesc == mVars[mCurrent].desc
      ensures !Handles(key) ==> changedDesc == ""
    {
      if |mVars| > 0 {
        var v := mVars[mCurrent];
        var d := v.smallAdjust;
        if modifiers == GlutActiveShift {
          d := v.largeAdjust;
        }
        var changed := false;
        if key == GlutKeyUp {
          store[v.target] := store[v.target] + d;
          changed := true;
        } else if key == GlutKeyDown {
          store[v.target] := store[v.target] - d;
          changed := true;
        }
        if changed {
          return v.desc;
        }
      }
      return "";
    }
  }
}
