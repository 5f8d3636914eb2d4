/** The member's printer: digits written backwards and reversed in place in one preallocated buffer. */
module HeldPrinter {
  import opened Common
  import opened Held
  import D = Decimal
  import J = Json
  import T = Text

  function Reversed(s: string): (r: string)
    ensures |r| == |s|
  {
    if s == [] then [] else [s[|s| - 1]] + Reversed(s[..|s| - 1])
  }

  lemma {:induction false} ReversedAt(s: string, i: nat)
    requires i < |s|
    ensures Reversed(s)[i] == s[|s| - 1 - i]
  {
    if i > 0 { ReversedAt(s[..|s| - 1], i - 1); }
  }

  /** The digits in the order the loop produces them. */
  function LowFirst(n: nat): (s: string)
    ensures s != []
  {
    [D.DigitChar(n % 10)] + (if n / 10 == 0 then [] else LowFirst(n / 10))
  }

  lemma {:induction false} LowFirstReversed(n: nat)
    ensures Reversed(LowFirst(n)) == D.Text(n) && |LowFirst(n)| == |D.Text(n)|
  {
    if n / 10 == 0 {
      assert LowFirst(n)[..0] == [];
    } else {
      LowFirstReversed(n / 10);
      ReversedCons(D.DigitChar(n % 10), LowFirst(n / 10));
    }
  }

  lemma {:induction false} ReversedCons(c: char, s: string)
    ensures Reversed([c] + s) == Reversed(s) + [c]
  {
    if s == [] {
      assert ([c] + s)[..0] == [];
    } else {
      assert ([c] + s)[..|s|] == [c] + s[..|s| - 1];
      ReversedCons(c, s[..|s| - 1]);
    }
  }

  lemma MirrorIsReversed(was: string, now: string)
    requires |now| == |was| && forall i :: 0 <= i < |was| ==> now[i] == was[|was| - 1 - i]
    ensures now == Reversed(was)
  {
    hide Reversed;
    forall i | 0 <= i < |was| ensures now[i] == Reversed(was)[i] {
      ReversedAt(was, i);
    }
  }

  class FixedHeld {
    const buffer: array<char>
    var index: nat

    constructor ()
      ensures Valid() && Written() == "" && fresh(buffer)
    {
      buffer := new char[LINE_MAX](_ => '\0');
      index := 0;
    }

    ghost predicate Valid()
      reads this
    {
      buffer.Length == LINE_MAX && index <= buffer.Length
    }

    ghost function Written(): string
      requires Valid()
      reads this, buffer
    {
      buffer[..index]
    }

    method Raw(value: string) returns (ok: bool)
      requires Valid()
      modifies this`index, buffer
      ensures Valid() && (ok <==> |old(Written())| + |value| <= LINE_MAX)
      ensures ok ==> Written() == old(Written()) + value
    {
      var end := index + |value|;
      if end > buffer.Length {
        return false;
      }
      forall i | 0 <= i < |value| {
        buffer[index + i] := value[i];
      }
      index := end;
      return true;
    }

    /** Digits least significant first, then reversed in place. */
    method Number(value: int) returns (ok: bool)
      requires Valid()
      modifies this`index, buffer
      ensures Valid()
      ensures ok <==> -1 <= value <= LIMIT50 && |old(Written())| + |J.IntText(value)| <= LINE_MAX
      ensures ok ==> Written() == old(Written()) + J.IntText(value)
    {
      if !(-1 <= value <= LIMIT50) {
        return false;
      }
      var rest: nat := if value < 0 then -value else value;
      if value < 0 {
        var signed := Raw("-");
        if !signed { return false; }
      }
      ok := Digits(rest);
    }

    method Digits(value: nat) returns (ok: bool)
      requires Valid()
      modifies this`index, buffer
      ensures Valid()
      ensures ok <==> |old(Written())| + |D.Text(value)| <= LINE_MAX
      ensures ok ==> Written() == old(Written()) + D.Text(value)
    {
      hide D.Text, LowFirst, Reversed;
      var start := index;
      LowFirstReversed(value);
      ok := LowDigits(value);
      if ok {
        ReverseInPlace(start, D.Text(value));
        assert buffer[..index] == buffer[..start] + buffer[start..index];
      }
    }

    method LowDigits(value: nat) returns (ok: bool)
      requires Valid()
      modifies this`index, buffer
      ensures Valid() && (ok <==> |old(Written())| + |LowFirst(value)| <= LINE_MAX)
      ensures ok ==> index == old(index) + |LowFirst(value)|
      ensures ok ==> buffer[..old(index)] == old(Written()) && buffer[old(index)..index] == LowFirst(value)
    {
      hide D.DigitChar, LowFirst;
      ghost var prefix := Written();
      var rest, start := value, index;
      assert LowFirst(value) == [] + LowFirst(rest);
      while true
        invariant Valid() && start <= index
        invariant buffer[..start] == prefix
        invariant LowFirst(value) == buffer[start..index] + LowFirst(rest)
        decreases rest
      {
        ghost var low := buffer[start..index];
        LowStep(rest, low);
        if index >= buffer.Length {
          return false;
        }
        buffer[index] := D.DigitChar(rest % 10);
        index := index + 1;
        assert buffer[start..index] == low + [D.DigitChar(rest % 10)];
        rest := rest / 10;
        if rest == 0 {
          break;
        }
      }
      return true;
    }

    static lemma LowStep(n: nat, low: string)
      ensures low + LowFirst(n) == (low + [D.DigitChar(n % 10)]) + (if n / 10 == 0 then [] else LowFirst(n / 10))
      ensures LowFirst(n) != []
    {
      LowUnfold(n);
      hide D.DigitChar, LowFirst;
      T.Associative(low, [D.DigitChar(n % 10)], if n / 10 == 0 then [] else LowFirst(n / 10));
    }

    static lemma LowUnfold(n: nat)
      ensures LowFirst(n) == [D.DigitChar(n % 10)] + (if n / 10 == 0 then [] else LowFirst(n / 10))
    {
    }

    method ReverseInPlace(start: nat, ghost text: string)
      requires Valid() && start <= index && text == Reversed(buffer[start..index])
      modifies buffer
      ensures buffer[..start] == old(buffer[..start]) && buffer[start..index] == text
    {
      hide Reversed;
      ghost var was, before := buffer[start..index], buffer[..start];
      SwapEnds(start);
      assert buffer[..start] == before;
      MirrorIsReversed(was, buffer[start..index]);
    }

    /** The ends change places until they meet. */
    method SwapEnds(start: nat)
      requires Valid() && start <= index
      modifies buffer
      ensures forall k :: 0 <= k < start ==> buffer[k] == old(buffer[k])
      ensures forall k :: start <= k < index ==> buffer[k] == old(buffer[start + index - 1 - k])
    {
      var left, right := start, index - 1;
      while left < right
        invariant start <= left && left - start == index - 1 - right && left <= right + 1
        invariant forall k :: 0 <= k < start ==> buffer[k] == old(buffer[k])
        invariant forall k :: start <= k < left || right < k < index ==> buffer[k] == old(buffer[start + index - 1 - k])
        invariant forall k :: left <= k <= right ==> buffer[k] == old(buffer[k])
      {
        buffer[left], buffer[right] := buffer[right], buffer[left];
        left, right := left + 1, right - 1;
      }
    }

    /** A label and its number, with room to spare. */
    method Field(l: Label, value: int)
      requires Valid() && -1 <= value <= LIMIT50 && |Written()| + 39 <= LINE_MAX
      modifies this`index, buffer
      ensures Valid() && Written() == old(Written()) + FieldText(l, value)
      ensures |Written()| <= |old(Written())| + 39
    {
      hide J.IntText, LabelText;
      IntTextLength(value);
      LabelLength(l);
      var _ := Raw(LabelText(l));
      var _ := Number(value);
    }

    /** A fixed word, with room to spare. */
    method Word(word: string)
      requires Valid() && |Written()| + |word| <= LINE_MAX
      modifies this`index, buffer
      ensures Valid() && Written() == old(Written()) + word
    {
      var _ := Raw(word);
    }

    method EncodeHead(kind: Kind, limits: Limits)
      requires Valid() && Written() == "" && -1 <= limits.soft <= LIMIT50 && -1 <= limits.hard <= LIMIT50
      modifies this`index, buffer
      ensures Valid() && Written() == HeadText(kind, limits) && |Written()| <= 120
    {
      hide FieldText, LabelText, KindText;
      LabelLength(LKind);
      WordLength(kind, NONE);
      Word(LabelText(LKind));
      Word(KindText(kind));
      Field(LLimits, limits.soft);
      Field(LComma, limits.hard);
    }

    method EncodeVm(vm: Vm)
      requires Valid() && ValidVm(vm) && |Written()| <= 120
      modifies this`index, buffer
      ensures Valid() && Written() == old(Written()) + VmText(vm) && |Written()| <= 300
    {
      hide FieldText, LabelText;
      LabelLength(LVm);
      Word(LabelText(LVm));
      Field(LSize, vm.size);
      Field(LPeak, vm.peak);
      assert Written() == old(Written()) + (LabelText(LVm) + FieldText(LSize, vm.size) + FieldText(LPeak, vm.peak));
      EncodeUse(vm);
    }

    method EncodeUse(vm: Vm)
      requires Valid() && ValidVm(vm) && |Written()| <= 221
      modifies this`index, buffer
      ensures Valid() && Written() == old(Written()) + (FieldText(LRss, vm.rss) + FieldText(LThreads, vm.threads))
      ensures |Written()| <= 300
    {
      hide FieldText, LabelText;
      Field(LRss, vm.rss);
      Field(LThreads, vm.threads);
    }

    method EncodeCounts(blocks: int)
      requires Valid() && 0 <= blocks <= 10 && |Written()| <= 300
      modifies this`index, buffer
      ensures Valid() && Written() == old(Written()) + CountsText(blocks) && |Written()| <= 420
    {
      hide FieldText, LabelText;
      Field(LAccepted, blocks * STEP);
      Field(LPages, blocks * (STEP / PAGE));
      Field(LBlocks, blocks);
    }

    method EncodeTail(failure: Failure, errno: Option<int>)
      requires Valid() && |Written()| <= 420 && (errno.Some? ==> 1 <= errno.value <= 4095)
      modifies this`index, buffer
      ensures Valid() && Written() == old(Written()) + TailText(failure, errno)
    {
      hide ErrnoText, LabelText, FailureText;
      LabelLength(LEnd);
      EncodeFailure(failure);
      EncodeErrno(errno);
      Word(LabelText(LEnd));
    }

    method EncodeFailure(failure: Failure)
      requires Valid() && |Written()| <= 420
      modifies this`index, buffer
      ensures Valid() && |Written()| <= 500
      ensures Written() == old(Written()) + (LabelText(LFailure) + FailureText(failure) + LabelText(LErrno))
    {
      hide LabelText, FailureText;
      LabelLength(LFailure);
      LabelLength(LErrno);
      WordLength(Private, failure);
      Word(LabelText(LFailure));
      Word(FailureText(failure));
      Word(LabelText(LErrno));
    }

    method EncodeErrno(errno: Option<int>)
      requires Valid() && |Written()| <= 500 && (errno.Some? ==> 1 <= errno.value <= 4095)
      modifies this`index, buffer
      ensures Valid() && Written() == old(Written()) + ErrnoText(errno) && |Written()| <= 520
    {
      hide J.IntText;
      if errno.None? {
        Word("null");
      } else {
        IntTextLength(errno.value);
        var _ := Number(errno.value);
      }
    }

    /** Every admitted report fits the buffer; everything else is refused. */
    method Encode(kind: Kind, limits: Limits, vm: Vm, blocks: int, failure: Failure, errno: Option<int>)
      returns (view: Option<string>)
      requires Valid()
      modifies this`index, buffer
      ensures Valid() && (view.Some? <==> Encodable(limits, vm, blocks, failure, errno))
      ensures view.Some? ==> view.value == HeldText(kind, limits, vm, blocks, failure, errno)
    {
      hide HeadText, VmText, CountsText, TailText;
      if !Encodable(limits, vm, blocks, failure, errno) {
        return None;
      }
      index := 0;
      EncodeHead(kind, limits);
      EncodeVm(vm);
      EncodeCounts(blocks);
      EncodeTail(failure, errno);
      return Some(buffer[..index]);
    }
  }
}
