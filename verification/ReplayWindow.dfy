/** The replay window as the program keeps it: packed words shifted in place. */
module ReplayWindow {
  import opened Base
  import opened ReplaySpec

  // ---------------------------------------------------------------- bits of words

  predicate Bit(w: bv64, i: bv6) {
    w & (1 as bv64 << i) != 0
  }

  /** A word with one bit set, with one bit cleared, and with only its low bits. */
  function SetOf(w: bv64, i: bv6): bv64 {
    w | (1 as bv64 << i)
  }

  function ClearOf(w: bv64, i: bv6): bv64 {
    w & !(1 as bv64 << i)
  }

  function LowOf(w: bv64, u: bv6): bv64 {
    w & ((1 as bv64 << u) - 1)
  }

  lemma SameBit(x: bv64, y: bv64, j: bv6)
    requires x & (1 as bv64 << j) == y & (1 as bv64 << j)
    ensures Bit(x, j) == Bit(y, j)
  {
  }

  lemma SetMasks(w: bv64, i: bv6, j: bv6)
    requires i != j
    ensures (w | (1 as bv64 << i)) & (1 as bv64 << j) == w & (1 as bv64 << j)
  {
  }

  lemma ClearMasks(w: bv64, i: bv6, j: bv6)
    requires i != j
    ensures (w & !(1 as bv64 << i)) & (1 as bv64 << j) == w & (1 as bv64 << j)
  {
  }

  lemma LowMasks(w: bv64, u: bv6, j: bv6)
    requires j < u
    ensures (w & ((1 as bv64 << u) - 1)) & (1 as bv64 << j) == w & (1 as bv64 << j)
  {
  }

  lemma SetSame(w: bv64, i: bv6)
    ensures Bit(SetOf(w, i), i)
  {
  }

  lemma SetOther(w: bv64, i: bv6, j: bv6)
    requires i != j
    ensures Bit(SetOf(w, i), j) == Bit(w, j)
  {
    SetMasks(w, i, j);
    SameBit(SetOf(w, i), w, j);
  }

  lemma ClearSame(w: bv64, i: bv6)
    ensures !Bit(ClearOf(w, i), i)
  {
  }

  lemma ClearOther(w: bv64, i: bv6, j: bv6)
    requires i != j
    ensures Bit(ClearOf(w, i), j) == Bit(w, j)
  {
    ClearMasks(w, i, j);
    SameBit(ClearOf(w, i), w, j);
  }

  lemma LowKept(w: bv64, u: bv6, j: bv6)
    requires j < u
    ensures Bit(LowOf(w, u), j) == Bit(w, j)
  {
    LowMasks(w, u, j);
    SameBit(LowOf(w, u), w, j);
  }

  lemma HighDropped(w: bv64, u: bv6, j: bv6)
    requires u <= j
    ensures !Bit(LowOf(w, u), j)
  {
  }

  lemma NoBits(i: bv6)
    ensures !Bit(0, i)
  {
  }

  // ---------------------------------------------------------------- bits of sequences

  /** The place of a bit in its word. */
  function Place(i: nat): bv6 {
    (i % 64) as bv6
  }

  lemma PlaceValue(i: nat)
    ensures Place(i) as nat == i % 64
  {
  }

  lemma PlacesApart(i: nat, j: nat)
    requires i % 64 != j % 64
    ensures Place(i) != Place(j)
  {
    PlaceValue(i);
    PlaceValue(j);
  }

  lemma PlaceBelow(i: nat, j: nat)
    requires i % 64 < j % 64
    ensures Place(i) < Place(j)
  {
    PlaceValue(i);
    PlaceValue(j);
  }

  lemma PlaceAtMost(i: nat, j: nat)
    requires i % 64 <= j % 64
    ensures Place(i) <= Place(j)
  {
    PlaceValue(i);
    PlaceValue(j);
  }

  predicate BitOf(ws: seq<bv64>, i: nat)
    requires i < 64 * |ws|
  {
    Bit(ws[i / 64], Place(i))
  }

  function Raised(w: bv64, i: nat): bv64 {
    SetOf(w, Place(i))
  }

  function Lowered(w: bv64, i: nat): bv64 {
    ClearOf(w, Place(i))
  }

  lemma RaisedBit(w: bv64, i: nat)
    ensures Bit(Raised(w, i), Place(i))
  {
    SetSame(w, Place(i));
  }

  lemma RaisedOther(w: bv64, i: nat, j: nat)
    requires i % 64 != j % 64
    ensures Bit(Raised(w, i), Place(j)) == Bit(w, Place(j))
  {
    PlacesApart(i, j);
    SetOther(w, Place(i), Place(j));
  }

  lemma LoweredBit(w: bv64, i: nat)
    ensures !Bit(Lowered(w, i), Place(i))
  {
    ClearSame(w, Place(i));
  }

  lemma LoweredOther(w: bv64, i: nat, j: nat)
    requires i % 64 != j % 64
    ensures Bit(Lowered(w, i), Place(j)) == Bit(w, Place(j))
  {
    PlacesApart(i, j);
    ClearOther(w, Place(i), Place(j));
  }

  function WithBit(ws: seq<bv64>, i: nat): seq<bv64>
    requires i < 64 * |ws|
  {
    ws[i / 64 := Raised(ws[i / 64], i)]
  }

  function WithoutBit(ws: seq<bv64>, i: nat): seq<bv64>
    requires i < 64 * |ws|
  {
    ws[i / 64 := Lowered(ws[i / 64], i)]
  }

  lemma BitSet(ws: seq<bv64>, i: nat, j: nat)
    requires i < 64 * |ws| && j < 64 * |ws|
    ensures BitOf(WithBit(ws, i), j) <==> i == j || BitOf(ws, j)
  {
    if i == j {
      RaisedBit(ws[i / 64], i);
    } else if i / 64 == j / 64 {
      RaisedOther(ws[i / 64], i, j);
    }
  }

  lemma BitCleared(ws: seq<bv64>, i: nat, j: nat)
    requires i < 64 * |ws| && j < 64 * |ws|
    ensures BitOf(WithoutBit(ws, i), j) <==> i != j && BitOf(ws, j)
  {
    if i == j {
      LoweredBit(ws[i / 64], i);
    } else if i / 64 == j / 64 {
      LoweredOther(ws[i / 64], i, j);
    }
  }

  /** A word masked down to the bits below the place of `width`. */
  function Low(w: bv64, width: nat): bv64 {
    LowOf(w, Place(width))
  }

  lemma LowKeeps(w: bv64, width: nat, j: nat)
    requires j % 64 < width % 64
    ensures Bit(Low(w, width), Place(j)) == Bit(w, Place(j))
  {
    PlaceBelow(j, width);
    LowKept(w, Place(width), Place(j));
  }

  lemma LowDrops(w: bv64, width: nat, j: nat)
    requires width % 64 <= j % 64
    ensures !Bit(Low(w, width), Place(j))
  {
    PlaceAtMost(width, j);
    HighDropped(w, Place(width), Place(j));
  }

  /** The last word masked down to its used bits. */
  function Trimmed(ws: seq<bv64>, width: nat): seq<bv64>
    requires 0 < |ws|
  {
    ws[|ws| - 1 := Low(ws[|ws| - 1], width)]
  }

  lemma TrimKeeps(ws: seq<bv64>, width: nat, j: nat)
    requires 64 * (|ws| - 1) < width < 64 * |ws| && j < width
    ensures BitOf(Trimmed(ws, width), j) == BitOf(ws, j)
  {
    if j / 64 == |ws| - 1 {
      LowKeeps(ws[j / 64], width, j);
    }
  }

  lemma TrimDrops(ws: seq<bv64>, width: nat, j: nat)
    requires 64 * (|ws| - 1) < width <= j < 64 * |ws|
    ensures !BitOf(Trimmed(ws, width), j)
  {
    LowDrops(ws[j / 64], width, j);
  }

  /** The words hold exactly these bits. */
  ghost predicate Packs(ws: seq<bv64>, bits: seq<bool>) {
    && |bits| == 64 * |ws|
    && (forall i {:trigger BitOf(ws, i)} :: 0 <= i < |bits| ==> BitOf(ws, i) == bits[i])
  }

  lemma PacksBit(ws: seq<bv64>, bits: seq<bool>, i: nat)
    requires Packs(ws, bits) && i < |bits|
    ensures BitOf(ws, i) == bits[i]
  {
  }

  lemma PacksSet(ws: seq<bv64>, bits: seq<bool>, i: nat)
    requires Packs(ws, bits) && i < |bits|
    ensures Packs(WithBit(ws, i), bits[i := true])
  {
    forall j | 0 <= j < |bits|
      ensures BitOf(WithBit(ws, i), j) == bits[i := true][j]
    {
      BitSet(ws, i, j);
      PacksBit(ws, bits, j);
    }
  }

  lemma PacksCleared(ws: seq<bv64>, bits: seq<bool>, i: nat)
    requires Packs(ws, bits) && i < |bits|
    ensures Packs(WithoutBit(ws, i), bits[i := false])
  {
    forall j | 0 <= j < |bits|
      ensures BitOf(WithoutBit(ws, i), j) == bits[i := false][j]
    {
      BitCleared(ws, i, j);
      PacksBit(ws, bits, j);
    }
  }

  lemma PacksTrimmed(ws: seq<bv64>, bits: seq<bool>, width: nat)
    requires Packs(ws, bits) && 64 * (|ws| - 1) < width < 64 * |ws|
    requires forall j :: width <= j < |bits| ==> !bits[j]
    ensures Packs(Trimmed(ws, width), bits)
  {
    forall j | 0 <= j < |bits|
      ensures BitOf(Trimmed(ws, width), j) == bits[j]
    {
      if j < width {
        TrimKeeps(ws, width, j);
        PacksBit(ws, bits, j);
      } else {
        TrimDrops(ws, width, j);
      }
    }
  }

  lemma PacksNothing(ws: seq<bv64>, bits: seq<bool>)
    requires |bits| == 64 * |ws| && (forall i :: 0 <= i < |ws| ==> ws[i] == 0) && (forall i :: 0 <= i < |bits| ==> !bits[i])
    ensures Packs(ws, bits)
  {
    forall j | 0 <= j < |bits|
      ensures BitOf(ws, j) == bits[j]
    {
      NoBits(Place(j));
    }
  }

  // ---------------------------------------------------------------- the window

  /** The bits after a shift by `amount` within `width`. */
  ghost predicate Shifted(before: seq<bool>, after: seq<bool>, width: nat, amount: nat) {
    && |after| == |before|
    && (forall i :: 0 <= i < |after| ==> (after[i] <==> i < width && i >= amount && before[i - amount]))
  }

  /** Bit i stands for the number `highest - i`, for the `width` numbers below the
      horizon, and no bit beyond is set. */
  ghost predicate Stands(bits: seq<bool>, w: Window) {
    && w.width <= |bits|
    && (forall i :: 0 <= i < |bits| ==>
          (bits[i] <==> i < w.width && w.highest.Some? && i <= w.highest.value && w.highest.value - i in w.seen))
  }

  class ReplayFilter {
    const width: nat
    var highest: Option<nat>
    const words: array<bv64>
    ghost var bits: seq<bool>
    ghost var seen: set<nat>

    ghost predicate Packed()
      reads this, words
    {
      && width > 0 && words.Length == (width + 63) / 64
      && Packs(words[..], bits)
    }

    ghost predicate Valid()
      reads this, words
    {
      Packed() && ValidWindow(View()) && Stands(bits, View())
    }

    /** The set of numbers accepted so far, seen through the window. */
    ghost function View(): Window
      reads this
    {
      Window(width, highest, seen)
    }

    constructor (w: nat)
      requires w > 0
      ensures Valid() && View() == NewWindow(w) && fresh(words)
    {
      width := w;
      highest := None;
      words := new bv64[(w + 63) / 64](_ => 0);
      seen := {};
      bits := seq(64 * ((w + 63) / 64), _ => false);
      new;
      PacksNothing(words[..], bits);
    }

    method Get(index: nat) returns (value: bool)
      requires Packed() && index < width
      ensures value == bits[index]
    {
      PacksBit(words[..], bits, index);
      value := Bit(words[index / 64], Place(index));
    }

    method Set(index: nat)
      requires Packed() && index < width
      modifies words, `bits
      ensures Packed() && bits == old(bits)[index := true]
    {
      PacksSet(words[..], bits, index);
      ghost var after := WithBit(words[..], index);
      words[index / 64] := Raised(words[index / 64], index);
      assert words[..] == after;
      bits := bits[index := true];
    }

    method Clear(index: nat)
      requires Packed() && index < width
      modifies words, `bits
      ensures Packed() && bits == old(bits)[index := false]
    {
      PacksCleared(words[..], bits, index);
      ghost var after := WithoutBit(words[..], index);
      words[index / 64] := Lowered(words[index / 64], index);
      assert words[..] == after;
      bits := bits[index := false];
    }

    method ClearAll()
      requires Packed()
      modifies words, `bits
      ensures Packed() && |bits| == |old(bits)| && forall i :: 0 <= i < |bits| ==> !bits[i]
    {
      var i := 0;
      while i < words.Length
        invariant 0 <= i <= words.Length && forall j :: 0 <= j < i ==> words[j] == 0
        invariant bits == old(bits)
        modifies words
      {
        words[i] := 0;
        i := i + 1;
      }
      bits := seq(|bits|, _ => false);
      PacksNothing(words[..], bits);
    }

    method ClearUnusedTail()
      requires Packed() && forall j :: width <= j < |bits| ==> !bits[j]
      modifies words
      ensures Packed()
    {
      if width % 64 != 0 {
        PacksTrimmed(words[..], bits, width);
        ghost var after := Trimmed(words[..], width);
        var last := words.Length - 1;
        words[last] := Low(words[last], width);
        assert words[..] == after;
      }
    }

    /** `shift_left`: every number moves `amount` places away from the new highest,
        in place, from the far end. */
    method ShiftLeft(amount: nat)
      requires Packed() && amount > 0 && (forall j :: width <= j < |bits| ==> !bits[j])
      modifies words, `bits
      ensures Packed() && Shifted(old(bits), bits, width, amount)
    {
      if amount >= width {
        ClearAll();
        return;
      }
      var index := width;
      while index > amount
        invariant amount <= index <= width && Packed() && |bits| == |old(bits)|
        invariant forall j :: 0 <= j < index ==> bits[j] == old(bits)[j]
        invariant forall j :: index <= j < width ==> bits[j] == old(bits)[j - amount]
        invariant forall j :: width <= j < |bits| ==> !bits[j]
      {
        index := index - 1;
        var value := Get(index - amount);
        if value {
          Set(index);
        } else {
          Clear(index);
        }
      }
      index := 0;
      while index < amount
        invariant 0 <= index <= amount && Packed() && |bits| == |old(bits)|
        invariant forall j :: 0 <= j < index ==> !bits[j]
        invariant forall j :: amount <= j < width ==> bits[j] == old(bits)[j - amount]
        invariant forall j :: width <= j < |bits| ==> !bits[j]
      {
        Clear(index);
        index := index + 1;
      }
      ClearUnusedTail();
    }

    /** `accept`, against the plain set of numbers accepted so far. */
    method Accept(number: nat) returns (refused: Option<ReplayError>)
      requires Valid()
      modifies this, words
      ensures Valid()
      ensures match ReplaySpec.Accept(old(View()), number)
              case Accepted(w) => refused.None? && View() == w
              case Refused(e) => refused == Some(e) && View() == old(View()) && words[..] == old(words[..])
    {
      if highest.None? {
        highest := Some(number);
        seen := {number};
        Set(0);
        return None;
      }
      var top := highest.value;
      if number > top {
        ShiftLeft(number - top);
        highest := Some(number);
        seen := seen + {number};
        Set(0);
        return None;
      }
      if top - number >= width {
        return Some(TooOld);
      }
      var taken := Get(top - number);
      if taken {
        return Some(Duplicate);
      }
      seen := seen + {number};
      Set(top - number);
      return None;
    }
  }
}
