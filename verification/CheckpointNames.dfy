/** Names of checkpoint files, and the listing that reads sequence numbers back from them.

    A name is `<epoch>-<sequence>.json`, both in decimal.
 */
module CheckpointNames {
  import opened Wrappers
  import opened Digits
  import opened FileSystems

  const SUFFIX := ".json"

  /** `<epoch>-<sequence>.json` */
  function FileName(epoch: nat, sequence: nat): string {
    ToText(epoch) + ("-" + (ToText(sequence) + SUFFIX))
  }

  /** The file of a checkpoint in the store's checkpoint directory. */
  function SlotName(dir: string, epoch: nat, sequence: nat): Name {
    Final(dir, FileName(epoch, sequence))
  }

  /** One turn of `_checkpoint_sequences`: the number in a file name `<epoch>-*.json`, if it is one. */
  function SequenceOf(base: string, epoch: nat): Option<nat> {
    var prefix := ToText(epoch) + "-";
    if |base| < |prefix| + |SUFFIX| || base[..|prefix|] != prefix || base[|base| - |SUFFIX|..] != SUFFIX then None
    else
      var middle := base[|prefix|..|base| - |SUFFIX|];
      if middle != "" && AllDigits(middle) then Some(FromText(middle)) else None
  }

  lemma NameBeginsWithEpoch(epoch: nat, sequence: nat)
    ensures LeadingDigits(FileName(epoch, sequence)) == |ToText(epoch)|
    ensures FileName(epoch, sequence)[..|ToText(epoch)|] == ToText(epoch)
    ensures FileName(epoch, sequence)[|ToText(epoch)|..] == "-" + (ToText(sequence) + SUFFIX)
  {
    ToTextIsNumeral(epoch);
    LeadingDigitsOf(ToText(epoch), "-" + (ToText(sequence) + SUFFIX));
  }

  lemma TextIsNumber(a: nat, b: nat)
    requires ToText(a) == ToText(b)
    ensures a == b
  {
    ToTextIsNumeral(a);
    ToTextIsNumeral(b);
  }

  /** Different positions are different files. */
  lemma FileNameInjective(e: nat, n: nat, e': nat, n': nat)
    requires FileName(e, n) == FileName(e', n')
    ensures e == e' && n == n'
  {
    NameBeginsWithEpoch(e, n);
    NameBeginsWithEpoch(e', n');
    TextIsNumber(e, e');
    var tail, tail' := ToText(n) + SUFFIX, ToText(n') + SUFFIX;
    assert ("-" + tail)[1..] == tail && ("-" + tail')[1..] == tail';
    assert tail[..|tail| - 5] == ToText(n) && tail'[..|tail'| - 5] == ToText(n');
    TextIsNumber(n, n');
  }

  /** The listing finds the file of a checkpoint under its own epoch, with its number, and under no other. */
  lemma SequenceOfFileName(e: nat, n: nat, epoch: nat)
    ensures SequenceOf(FileName(e, n), epoch) == if e == epoch then Some(n) else None
  {
    var base, prefix := FileName(e, n), ToText(epoch) + "-";
    NameBeginsWithEpoch(e, n);
    if e == epoch {
      ToTextIsNumeral(n);
      assert base == prefix + ToText(n) + SUFFIX;
      assert base[|base| - |SUFFIX|..] == SUFFIX;
      assert base[|prefix|..|base| - |SUFFIX|] == ToText(n);
    } else if |base| >= |prefix| && base[..|prefix|] == prefix {
      OtherEpoch(base, epoch);
      TextIsNumber(e, epoch);
    }
  }

  lemma OtherEpoch(base: string, epoch: nat)
    requires |base| > |ToText(epoch)| && base[..|ToText(epoch)| + 1] == ToText(epoch) + "-"
    ensures LeadingDigits(base) == |ToText(epoch)| && base[..|ToText(epoch)|] == ToText(epoch)
  {
    var digits := ToText(epoch);
    ToTextIsNumeral(epoch);
    assert base[..|digits|] == base[..|digits| + 1][..|digits|] && base[|digits|] == base[..|digits| + 1][|digits|];
    assert base == digits + base[|digits|..];
    LeadingDigitsOf(digits, base[|digits|..]);
  }
}
