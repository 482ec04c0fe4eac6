/** The password record `scrypt$n$r$p$salt$digest`. */
module Password {
  import opened Wrappers
  import opened Text
  import Decimal
  import Base64

  type Bytes = seq<Base64.byte>

  const SCRYPT_N: nat := 16384
  const SCRYPT_R: nat := 8
  const SCRYPT_P: nat := 1
  const DKLEN: nat := 64

  /** The key derivation, None where it raises `ValueError`.  A key it returns has the length
      asked for, and the shipped parameters are accepted. */
  datatype Env = Env(scrypt: (string, Bytes, int, int, int, nat) -> Option<Bytes>) {
    ghost predicate Valid() {
      && (forall pw, salt, n, r, p, len ::
            scrypt(pw, salt, n, r, p, len).Some? ==> |scrypt(pw, salt, n, r, p, len).value| == len)
      && (forall pw, salt :: scrypt(pw, salt, SCRYPT_N, SCRYPT_R, SCRYPT_P, DKLEN).Some?)
    }
  }

  // ---------- the record ----------

  function DollarAt(s: string, i: nat): (n: nat)
    requires i <= |s|
    ensures i <= n <= |s|
    decreases |s| - i
  {
    if i == |s| || s[i] == '$' then i else DollarAt(s, i + 1)
  }

  /** `s.split("$", limit)`. */
  function Split(s: string, limit: nat): seq<string> {
    var n := DollarAt(s, 0);
    if limit == 0 || n == |s| then [s] else [s[..n]] + Split(s[n + 1..], limit - 1)
  }

  function Record(n: nat, r: nat, p: nat, salt: Bytes, digest: Bytes): string {
    "scrypt" + ("$" + (Decimal.Print(n) + ("$" + (Decimal.Print(r) + ("$" + (Decimal.Print(p)
      + ("$" + (Base64.Encode(salt) + ("$" + Base64.Encode(digest))))))))))
  }

  datatype Fields = Fields(n: int, r: int, p: int, salt: Bytes, digest: Bytes)

  /** What `verify_password` reads from a record; None where it answers False or raises. */
  function ReadRecord(record: string): Option<Fields> {
    var parts := Split(record, 5);
    if |parts| != 6 || parts[0] != "scrypt" then None
    else
      var salt, digest := Base64.Decode(parts[4]), Base64.Decode(parts[5]);
      var n, r, p := Decimal.Parse(parts[1]), Decimal.Parse(parts[2]), Decimal.Parse(parts[3]);
      if salt.None? || digest.None? || n.None? || r.None? || p.None? then None
      else Some(Fields(n.value, r.value, p.value, salt.value, digest.value))
  }

  /** `verify_password`. */
  function Verify(env: Env, password: string, record: string): bool {
    var fields := ReadRecord(record);
    fields.Some? &&
    var f := fields.value;
    env.scrypt(password, f.salt, f.n, f.r, f.p, |f.digest|) == Some(f.digest)
  }

  /** `hash_password`, with the random salt as an input. */
  function Hash(env: Env, password: string, salt: Bytes): Option<string> {
    var derived := env.scrypt(password, salt, SCRYPT_N, SCRYPT_R, SCRYPT_P, DKLEN);
    if derived.None? then None else Some(Record(SCRYPT_N, SCRYPT_R, SCRYPT_P, salt, derived.value))
  }

  // ---------- the round trip ----------

  predicate NoDollar(s: string) {
    forall i | 0 <= i < |s| :: s[i] != '$'
  }

  lemma {:induction false} DollarFirst(s: string, i: nat, n: nat)
    requires i <= n <= |s| && (n < |s| ==> s[n] == '$')
    requires forall k | i <= k < n :: s[k] != '$'
    ensures DollarAt(s, i) == n
    decreases n - i
  {
    if i < n {
      DollarFirst(s, i + 1, n);
    }
  }

  lemma SplitCons(a: string, rest: string, limit: nat)
    requires NoDollar(a) && limit > 0
    ensures Split(a + ("$" + rest), limit) == [a] + Split(rest, limit - 1)
  {
    var s := a + ("$" + rest);
    DollarFirst(s, 0, |a|);
    assert s[..|a|] == a && s[|a| + 1..] == rest;
  }

  lemma PrintedNoDollar(n: nat)
    ensures NoDollar(Decimal.Print(n))
  {}

  lemma EncodedNoDollar(bytes: Bytes)
    ensures NoDollar(Base64.Encode(bytes))
  {
    Base64.EncodeIsCode(bytes);
  }

  lemma RecordParts(n: nat, r: nat, p: nat, salt: Bytes, digest: Bytes)
    ensures Split(Record(n, r, p, salt, digest), 5) ==
            ["scrypt", Decimal.Print(n), Decimal.Print(r), Decimal.Print(p), Base64.Encode(salt), Base64.Encode(digest)]
  {
    PrintedNoDollar(n);
    PrintedNoDollar(r);
    PrintedNoDollar(p);
    EncodedNoDollar(salt);
    hide Decimal.Print, Base64.Encode, Split;
    var a, b, c, e, f := Decimal.Print(n), Decimal.Print(r), Decimal.Print(p), Base64.Encode(salt), Base64.Encode(digest);
    SplitCons("scrypt", a + ("$" + (b + ("$" + (c + ("$" + (e + ("$" + f))))))), 5);
    SplitCons(a, b + ("$" + (c + ("$" + (e + ("$" + f))))), 4);
    SplitCons(b, c + ("$" + (e + ("$" + f))), 3);
    SplitCons(c, e + ("$" + f), 2);
    SplitCons(e, f, 1);
    assert Split(f, 0) == [f] by { SplitNone(f); }
  }

  lemma SplitNone(s: string)
    ensures Split(s, 0) == [s]
  {}

  /** Reading a printed record gives the parameters, salt and digest back, whatever they are. */
  lemma ReadPrinted(n: nat, r: nat, p: nat, salt: Bytes, digest: Bytes)
    ensures ReadRecord(Record(n, r, p, salt, digest)) == Some(Fields(n, r, p, salt, digest))
  {
    hide Decimal.Print, Decimal.Parse, Base64.Encode, Base64.Decode, Split, Record;
    RecordParts(n, r, p, salt, digest);
    Decimal.PrintParse(n);
    Decimal.PrintParse(r);
    Decimal.PrintParse(p);
    Base64.DecodeEncode(salt);
    Base64.DecodeEncode(digest);
  }

  /** Different fields print as different records. */
  lemma RecordInjective(n1: nat, r1: nat, p1: nat, salt1: Bytes, digest1: Bytes,
                        n2: nat, r2: nat, p2: nat, salt2: Bytes, digest2: Bytes)
    requires Record(n1, r1, p1, salt1, digest1) == Record(n2, r2, p2, salt2, digest2)
    ensures n1 == n2 && r1 == r2 && p1 == p2 && salt1 == salt2 && digest1 == digest2
  {
    ReadPrinted(n1, r1, p1, salt1, digest1);
    ReadPrinted(n2, r2, p2, salt2, digest2);
  }

  /** A password verifies against the hash of another exactly when both derive the same key;
      so it verifies against its own. */
  lemma VerifyHashed(env: Env, password: string, other: string, salt: Bytes)
    requires env.Valid()
    ensures var hash := Hash(env, other, salt);
            && hash.Some?
            && (Verify(env, password, hash.value) <==>
                  env.scrypt(password, salt, SCRYPT_N, SCRYPT_R, SCRYPT_P, DKLEN)
                  == env.scrypt(other, salt, SCRYPT_N, SCRYPT_R, SCRYPT_P, DKLEN))
            && Verify(env, other, hash.value)
  {
    hide ReadRecord, Record;
    var derived := env.scrypt(other, salt, SCRYPT_N, SCRYPT_R, SCRYPT_P, DKLEN);
    ReadPrinted(SCRYPT_N, SCRYPT_R, SCRYPT_P, salt, derived.value);
  }

  /** The record of a new password, written out. */
  lemma HashIs(env: Env, password: string, salt: Bytes)
    requires env.Valid()
    ensures var derived := env.scrypt(password, salt, 16384, 8, 1, 64);
            && derived.Some?
            && Hash(env, password, salt) ==
               Some("scrypt$16384$8$1$" + Base64.Encode(salt) + "$" + Base64.Encode(derived.value))
  {
    hide Base64.Encode, Decimal.Print;
    assert Decimal.Print(16384) == "16384" && Decimal.Print(8) == "8" && Decimal.Print(1) == "1" by {
      Digits5();
    }
    var e, f := Base64.Encode(salt), Base64.Encode(env.scrypt(password, salt, 16384, 8, 1, 64).value);
    assert "scrypt" + ("$" + ("16384" + ("$" + ("8" + ("$" + ("1" + ("$" + (e + ("$" + f))))))))) ==
        "scrypt$16384$8$1$" + e + "$" + f;
  }

  lemma Digits5()
    ensures Decimal.Print(16384) == "16384" && Decimal.Print(8) == "8" && Decimal.Print(1) == "1"
  {
    Decimal.PrintIs(16384);
    Decimal.PrintIs(1638);
    Decimal.PrintIs(163);
    Decimal.PrintIs(16);
    Decimal.PrintIs(1);
    Decimal.PrintIs(8);
    hide Decimal.Print;
  }

  /** No other kind of record is accepted. */
  lemma SchemeNeeded(env: Env, password: string, record: string)
    requires Verify(env, password, record)
    ensures "scrypt$" <= record
  {
    DollarFound(record, 0);
    var n := DollarAt(record, 0);
    hide Base64.Decode, Decimal.Parse;
    assert Split(record, 5)[0] == record[..n] == "scrypt";
    assert record[n] == '$';
  }

  lemma {:induction false} DollarFound(s: string, i: nat)
    requires i <= |s|
    ensures DollarAt(s, i) < |s| ==> s[DollarAt(s, i)] == '$'
    decreases |s| - i
  {
    if i < |s| && s[i] != '$' {
      DollarFound(s, i + 1);
    }
  }
}
