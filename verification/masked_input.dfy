/**
 * Digit masking of the masked input component
 * (src/ui/components/masked-input.tsx): `applyMask` and the re-masking
 * done on change and on blur. A pattern mask is a string in which `X` and
 * `0` are digit slots and every other character is a literal.
 */
module MaskedInput {
  import opened Common

  /** The `mask` prop: absent, a pattern string, or a formatting function */
  datatype Mask = NoMask | Pattern(pattern: string) | Formatter(format: string -> string)

  /** `if (mask)`: an absent mask and the empty pattern are falsy */
  predicate MaskSet(mask: Mask) {
    !(mask.NoMask? || mask == Pattern(""))
  }

  predicate IsSlot(c: char) {
    c == 'X' || c == '0'
  }

  /** No literal character of the pattern is itself a decimal digit */
  predicate LiteralsNotDigits(m: string) {
    forall i :: 0 <= i < |m| && !IsSlot(m[i]) ==> !IsDigit(m[i])
  }

  function Min(a: nat, b: nat): nat {
    if a <= b then a else b
  }

  /** Number of digit slots in a pattern */
  function SlotCount(m: string): nat {
    if |m| == 0 then 0 else (if IsSlot(m[0]) then 1 else 0) + SlotCount(m[1..])
  }

  /** `value.replace(/[^0-9]/g, '')` */
  function DigitsOf(s: string): (r: string)
    ensures AllDigits(r) && |r| <= |s|
    ensures AllDigits(s) ==> r == s
  {
    if |s| == 0 then "" else (if IsDigit(s[0]) then [s[0]] else "") + DigitsOf(s[1..])
  }

  /**
   * The loop of `applyMask`: walk the pattern while digits remain, copying
   * literals and consuming one digit per slot.
   */
  function Fill(m: string, d: string): (r: string)
    ensures |r| <= |m|
  {
    if |m| == 0 || |d| == 0 then ""
    else if IsSlot(m[0]) then [d[0]] + Fill(m[1..], d[1..])
    else [m[0]] + Fill(m[1..], d)
  }

  /** `applyMask(value, mask)` */
  function ApplyMask(value: string, mask: Mask): string {
    match mask
    case NoMask => value
    case Formatter(f) => f(value)
    case Pattern(m) =>
      if m == "" then value
      else if 'X' in m || '0' in m then Fill(m, DigitsOf(value))
      else value
  }

  /** The loop of lines 34-44 as the component writes it, with an index into the mask and one into the digits */
  method FillLoop(m: string, clean: string) returns (masked: string)
    ensures masked == Fill(m, clean)
  {
    masked := "";
    var i, vi := 0, 0;
    assert m[i..] == m && clean[vi..] == clean;
    while i < |m| && vi < |clean|
      invariant 0 <= i <= |m| && 0 <= vi <= |clean|
      invariant masked + Fill(m[i..], clean[vi..]) == Fill(m, clean)
    {
      ghost var rest := Fill(m[i..], clean[vi..]);
      assert m[i..][1..] == m[i + 1..];
      if m[i] == 'X' || m[i] == '0' {
        assert clean[vi..][1..] == clean[vi + 1..];
        assert rest == [clean[vi]] + Fill(m[i + 1..], clean[vi + 1..]);
        assert masked + rest == (masked + [clean[vi]]) + Fill(m[i + 1..], clean[vi + 1..]);
        masked := masked + [clean[vi]];
        vi := vi + 1;
      } else {
        assert rest == [m[i]] + Fill(m[i + 1..], clean[vi..]);
        assert masked + rest == (masked + [m[i]]) + Fill(m[i + 1..], clean[vi..]);
        masked := masked + [m[i]];
      }
      i := i + 1;
    }
    assert Fill(m[i..], clean[vi..]) == "";
    assert masked + "" == masked;
  }

  /** `applyMask` for a pattern mask, as the component computes it */
  method ApplyPattern(value: string, m: string) returns (masked: string)
    ensures masked == ApplyMask(value, Pattern(m))
  {
    if m == "" || !('X' in m || '0' in m) {
      return value;
    }
    masked := FillLoop(m, DigitsOf(value));
  }

  lemma SlotCountPrefix(m: string, i: nat)
    requires 1 <= i <= |m|
    ensures SlotCount(m[..i]) == (if IsSlot(m[0]) then 1 else 0) + SlotCount(m[1..][..i - 1])
  {
    assert m[..i][1..] == m[1..][..i - 1];
  }

  /**
   * What `Fill` produces, position by position: output position i is mask
   * position i; a literal is copied; a slot holds the next unused digit; the
   * output stops as soon as digits run out, so it holds min(#digits, #slots)
   * digits and never ends on a literal unless surplus digits remain.
   */
  lemma {:induction false} FillShape(m: string, d: string)
    ensures var r := Fill(m, d);
      && (forall i :: 0 <= i < |r| && !IsSlot(m[i]) ==> r[i] == m[i])
      && (forall i :: 0 <= i < |r| && IsSlot(m[i]) ==> SlotCount(m[..i]) < |d| && r[i] == d[SlotCount(m[..i])])
      && SlotCount(m[..|r|]) == Min(|d|, SlotCount(m))
      && (|d| > SlotCount(m) ==> |r| == |m|)
      && (0 < |d| <= SlotCount(m) ==> 0 < |r| && IsSlot(m[|r| - 1]))
      && (|d| == 0 ==> r == "")
  {
    var r := Fill(m, d);
    if |m| == 0 || |d| == 0 {
      assert m[..0] == "";
    } else {
      var d' := if IsSlot(m[0]) then d[1..] else d;
      var r' := Fill(m[1..], d');
      FillShape(m[1..], d');
      assert r == [if IsSlot(m[0]) then d[0] else m[0]] + r';
      forall i | 0 <= i < |r|
        ensures !IsSlot(m[i]) ==> r[i] == m[i]
        ensures IsSlot(m[i]) ==> SlotCount(m[..i]) < |d| && r[i] == d[SlotCount(m[..i])]
      {
        if i == 0 {
          assert m[..0] == "";
        } else {
          SlotCountPrefix(m, i);
          assert r[i] == r'[i - 1] && m[i] == m[1..][i - 1];
        }
      }
      SlotCountPrefix(m, |r|);
      if 0 < |d| <= SlotCount(m) && |r'| > 0 {
        assert m[|r| - 1] == m[1..][|r'| - 1];
      }
    }
  }

  /** With no digits in the input the result is empty, whatever the pattern */
  lemma NoDigitsGivesEmpty(value: string, m: string)
    requires 'X' in m || '0' in m
    requires DigitsOf(value) == ""
    ensures ApplyMask(value, Pattern(m)) == ""
  {
  }

  /** A pattern without slots, and no mask at all, leave the value untouched */
  lemma NoSlotsLeavesValue(value: string, m: string)
    requires !('X' in m || '0' in m)
    ensures ApplyMask(value, Pattern(m)) == value && ApplyMask(value, NoMask) == value
  {
  }

  /** Every slot position of a pattern mask's output holds a digit of the input, never another character */
  lemma SlotsHoldDigits(value: string, m: string)
    requires 'X' in m || '0' in m
    ensures var r := ApplyMask(value, Pattern(m));
      |r| <= |m| && forall i :: 0 <= i < |r| && IsSlot(m[i]) ==> IsDigit(r[i])
  {
    FillShape(m, DigitsOf(value));
  }

  lemma DigitsOfCons(c: char, s: string)
    ensures DigitsOf([c] + s) == (if IsDigit(c) then [c] else "") + DigitsOf(s)
  {
    assert ([c] + s)[1..] == s;
  }

  /** Digit extraction is a filter: it distributes over concatenation, so every digit is kept, in order */
  lemma {:induction false} DigitsOfAppend(a: string, b: string)
    ensures DigitsOf(a + b) == DigitsOf(a) + DigitsOf(b)
    decreases |a|
  {
    if |a| > 0 {
      assert (a + b)[0] == a[0] && (a + b)[1..] == a[1..] + b;
      DigitsOfAppend(a[1..], b);
    } else {
      assert a + b == b;
    }
  }

  /** Re-extracting the digits of a filled pattern gives back exactly the digits that were placed */
  lemma {:induction false} DigitsOfFill(m: string, d: string)
    requires AllDigits(d) && LiteralsNotDigits(m)
    ensures DigitsOf(Fill(m, d)) == d[..Min(|d|, SlotCount(m))]
  {
    if |m| == 0 || |d| == 0 {
    } else {
      assert LiteralsNotDigits(m[1..]) by {
        forall i | 0 <= i < |m[1..]| && !IsSlot(m[1..][i]) ensures !IsDigit(m[1..][i]) {
          assert m[1..][i] == m[i + 1];
        }
      }
      if IsSlot(m[0]) {
        DigitsOfFill(m[1..], d[1..]);
        DigitsOfCons(d[0], Fill(m[1..], d[1..]));
        assert d[..Min(|d|, SlotCount(m))] == [d[0]] + d[1..][..Min(|d[1..]|, SlotCount(m[1..]))];
      } else {
        DigitsOfFill(m[1..], d);
        DigitsOfCons(m[0], Fill(m[1..], d));
      }
    }
  }

  /** Masking a value whose digits fit the slots is idempotent (the blur handler's reformatting is then a no-op) */
  lemma IdempotentWhenDigitsFit(value: string, m: string)
    requires LiteralsNotDigits(m)
    requires |DigitsOf(value)| <= SlotCount(m)
    ensures ApplyMask(ApplyMask(value, Pattern(m)), Pattern(m)) == ApplyMask(value, Pattern(m))
  {
    if m != "" && ('X' in m || '0' in m) {
      var d := DigitsOf(value);
      DigitsOfFill(m, d);
      assert d[..|d|] == d;
    }
  }

  /** Whatever the input, a second application reaches a fixed point: masking settles after one reformat */
  lemma SecondApplicationIsFixedPoint(value: string, m: string)
    requires LiteralsNotDigits(m)
    ensures var once := ApplyMask(value, Pattern(m));
            var twice := ApplyMask(once, Pattern(m));
            ApplyMask(twice, Pattern(m)) == twice
  {
    if m != "" && ('X' in m || '0' in m) {
      var once := ApplyMask(value, Pattern(m));
      DigitsOfFill(m, DigitsOf(value));
      IdempotentWhenDigitsFit(once, m);
    }
  }

  /**
   * As written, masking is not idempotent: surplus digits let the loop run
   * on into trailing literals, and re-masking the result drops them again.
   */
  lemma SurplusDigitsBreakIdempotence()
    ensures ApplyMask("123", Pattern("XX-")) == "12-"
    ensures ApplyMask("12-", Pattern("XX-")) == "12"
  {
    assert 'X' in "XX-";
    assert DigitsOf("123") == "123" by {
      assert "123"[1..] == "23" && "23"[1..] == "3" && "3"[1..] == "";
    }
    assert DigitsOf("12-") == "12" by {
      assert "12-"[1..] == "2-" && "2-"[1..] == "-" && "-"[1..] == "";
    }
    assert "XX-"[1..] == "X-" && "X-"[1..] == "-" && "-"[1..] == "";
    assert "123"[1..] == "23" && "23"[1..] == "3";
    assert "12"[1..] == "2" && "2"[1..] == "";
  }

  /** Masking that first drops the digits no slot can take: never emits a trailing literal */
  function ApplyMaskCapped(value: string, mask: Mask): string {
    match mask
    case Pattern(m) =>
      if m != "" && ('X' in m || '0' in m)
      then var d := DigitsOf(value); Fill(m, d[..Min(|d|, SlotCount(m))])
      else ApplyMask(value, mask)
    case _ => ApplyMask(value, mask)
  }

  /** The capped masking is idempotent for every input, and agrees with `applyMask` whenever the digits fit */
  lemma CappedIsIdempotent(value: string, m: string)
    requires LiteralsNotDigits(m)
    ensures ApplyMaskCapped(ApplyMaskCapped(value, Pattern(m)), Pattern(m)) == ApplyMaskCapped(value, Pattern(m))
    ensures |DigitsOf(value)| <= SlotCount(m) ==> ApplyMaskCapped(value, Pattern(m)) == ApplyMask(value, Pattern(m))
  {
    if m != "" && ('X' in m || '0' in m) {
      var d := DigitsOf(value);
      var k := Min(|d|, SlotCount(m));
      var d1 := d[..k];
      assert AllDigits(d1);
      DigitsOfFill(m, d1);
      assert d1[..Min(|d1|, SlotCount(m))] == d1;
      assert d1[..Min(|d1|, SlotCount(m))][..Min(|d1|, SlotCount(m))] == d1;
      if |d| <= SlotCount(m) {
        assert d1 == d;
      }
    }
  }

  // ---------------------------------------------------------------------
  // Change and blur
  // ---------------------------------------------------------------------

  /** The displayed text after an event, and the value reported through `onChange`, if any */
  datatype Update = Update(display: string, reported: Option<string>)

  /** `handleChange`: mask the typed text when a mask is set, show it, and report it */
  function HandleChange(typed: string, mask: Mask, hasOnChange: bool): (u: Update)
    ensures u.display == ApplyMask(typed, mask)
    ensures hasOnChange <==> u.reported == Some(u.display)
  {
    var processed := if MaskSet(mask) then ApplyMask(typed, mask) else typed;
    Update(processed, if hasOnChange then Some(processed) else None)
  }

  /** `handleBlur`: reformat the shown text; report only when that changes it */
  function HandleBlur(display: string, mask: Mask, hasOnChange: bool): (u: Update)
    ensures MaskSet(mask) && display != "" ==> u.display == ApplyMask(display, mask)
    ensures u.reported.Some? <==>
      hasOnChange && MaskSet(mask) && display != "" && ApplyMask(display, mask) != display
    ensures u.reported.Some? ==> u.reported.value == u.display
  {
    if MaskSet(mask) && display != "" then
      var formatted := ApplyMask(display, mask);
      if formatted != display then Update(formatted, if hasOnChange then Some(formatted) else None)
      else Update(display, None)
    else Update(display, None)
  }

  /** Blurring right after typing reports nothing when the typed digits fit the pattern */
  lemma BlurAfterChangeIsQuiet(typed: string, m: string, hasOnChange: bool)
    requires LiteralsNotDigits(m)
    requires |DigitsOf(typed)| <= SlotCount(m)
    ensures HandleBlur(HandleChange(typed, Pattern(m), hasOnChange).display, Pattern(m), hasOnChange).reported == None
  {
    IdempotentWhenDigitsFit(typed, m);
  }

  /** With surplus digits the blur after typing does report a changed value */
  lemma BlurAfterOverfullChangeReports()
    ensures HandleBlur(HandleChange("123", Pattern("XX-"), true).display, Pattern("XX-"), true).reported == Some("12")
  {
    SurplusDigitsBreakIdempotence();
  }
}
