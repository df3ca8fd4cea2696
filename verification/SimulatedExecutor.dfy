/** The simulated executor (go-api/internal/execution/execution.go): a pure function of the payment ID. */
module SimulatedExecutor {
  import opened Words
  import Money

  datatype Result = Result(success: bool, reason: string)

  /** The 64-bit FNV-1a hash of the ID's bytes; IDs are ASCII, one byte per character. */
  function Hash(id: string): Word {
    Fnv1a(FNV_OFFSET_BASIS, BytesOf(id))
  }

  /** Whether the simulated execution of `id` succeeds. */
  predicate Succeeds(id: string) {
    Hash(id) % 10 != 0
  }

  method Execute(id: string) returns (r: Result)
    ensures r.success <==> Succeeds(id)
    ensures r.success <==> !FailsByLastDigit(id)
    ensures r.reason == if r.success then "" else "simulated execution failure"
  {
    hide Fnv1aByte, Money.PrintNat;
    var h := FNV_OFFSET_BASIS;
    ghost var bytes := BytesOf(id);
    for i := 0 to |id|
      invariant Fnv1a(h, bytes[i..]) == Hash(id)
    {
      h := Fnv1aByte(h, id[i] as int % 256);
      assert bytes[i..][1..] == bytes[i + 1..];
    }
    FailsExactly(id);
    r := if h % 10 == 0 then Result(false, "simulated execution failure") else Result(true, "");
  }

  /** The hash, written out in decimal, ends in a zero. */
  ghost predicate FailsByLastDigit(id: string) {
    var digits := Money.PrintNat(Hash(id));
    digits[|digits| - 1] == '0'
  }

  lemma LastDigit(n: nat)
    ensures Money.PrintNat(n)[|Money.PrintNat(n)| - 1] == '0' <==> n % 10 == 0
  {
  }

  /** An ID fails exactly when the last decimal digit of its hash is zero. */
  lemma FailsExactly(id: string)
    ensures !Succeeds(id) <==> FailsByLastDigit(id)
  {
    hide Hash, Money.PrintNat;
    LastDigit(Hash(id));
  }

  /** IDs that differ in a single byte never share a hash. */
  lemma OneByteApart(id: string, other: string, k: nat)
    requires k < |id| == |other| && id[k] as int % 256 != other[k] as int % 256
    requires forall i :: 0 <= i < |id| && i != k ==> id[i] == other[i]
    ensures Hash(id) != Hash(other)
  {
    hide Fnv1a;
    var b, c := BytesOf(id), BytesOf(other);
    assert b == b[..k] + ([b[k]] + b[k + 1..]);
    assert c == b[..k] + ([c[k]] + b[k + 1..]);
    OneByteSeparates(FNV_OFFSET_BASIS, b[..k], b[k], c[k], b[k + 1..]);
  }
}
