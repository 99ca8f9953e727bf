/** back/pkg/utils/password.go: the printed form of a password hash and the
    checks a stored one passes. Argon2id is a function nobody looks into. */
module PasswordHash {
  import opened Types
  import opened Base64

  const WIDTH32 := 0x1_0000_0000
  const ARGON_VERSION := 19
  const ARGON_KEY_LENGTH := 32
  const ARGON_MAX_THREADS := 4
  const MAX_MEMORY_MIB := 4096
  const MAX_TIME := 64
  const MAX_SLOTS := 1024

  datatype Params = Params(memoryMiB: nat, time: nat, threads: nat, maxMemoryMiB: nat, maxConcurrent: int, waitBudget: int)

  /** What a stored hash says about itself. */
  datatype Stored = Stored(memory: nat, time: nat, threads: nat, salt: seq<Byte>, key: seq<Byte>)

  /** Password, salt, passes, KiB, lanes and key length to the key. */
  type Kdf = (string, seq<Byte>, nat, nat, nat, nat) -> seq<Byte>

  datatype Failure = Busy | Mismatch | Unreadable | Beyond

  predicate Valid(p: Params) {
    && 8 <= p.memoryMiB <= MAX_MEMORY_MIB
    && 1 <= p.time <= MAX_TIME
    && 1 <= p.threads < 256
    && p.memoryMiB <= p.maxMemoryMiB <= MAX_MEMORY_MIB
    && 1 <= p.maxConcurrent <= MAX_SLOTS
    && p.waitBudget > 0
  }

  /** uint32 products, as the machine makes them. */
  function MemoryKiB(p: Params): nat {
    p.memoryMiB * 1024 % WIDTH32
  }

  function MaxMemoryKiB(p: Params): nat {
    p.maxMemoryMiB * 1024 % WIDTH32
  }

  function MaxPasses(p: Params): nat {
    p.time * 8 % WIDTH32
  }

  function MaxThreads(p: Params): nat {
    if p.threads > ARGON_MAX_THREADS then p.threads else ARGON_MAX_THREADS
  }

  // ---------- printing ----------

  function DigitChar(d: nat): char
    requires d < 10
  {
    '0' + d as char
  }

  /** A number in decimal, as %d prints it. */
  function Decimal(n: nat): string {
    if n < 10 then [DigitChar(n)] else Decimal(n / 10) + [DigitChar(n % 10)]
  }

  function PrintParams(s: Stored): string {
    "m=" + (Decimal(s.memory) + (",t=" + (Decimal(s.time) + (",p=" + Decimal(s.threads)))))
  }

  function Print(s: Stored): string {
    "$argon2id$" + (("v=" + Decimal(ARGON_VERSION)) + ("$" + (PrintParams(s) + ("$" + (Encode(Standard, s.salt) + ("$" + Encode(Standard, s.key)))))))
  }

  // ---------- scanning ----------

  predicate IsDigit(c: char) {
    '0' <= c <= '9'
  }

  /** %d skips blanks in front of its number. */
  function SkipBlanks(text: string): string {
    if |text| > 0 && (text[0] == ' ' || text[0] == '\t') then SkipBlanks(text[1..]) else text
  }

  /** The digits in front: the number so far grows by each. */
  function Number(text: string, sofar: nat): (nat, string) {
    if |text| > 0 && IsDigit(text[0]) then Number(text[1..], 10 * sofar + (text[0] - '0') as int) else (sofar, text)
  }

  /** %d into an unsigned variable; too wide a number is refused. */
  function ScanUnsigned(text: string, width: nat): Option<(nat, string)> {
    var digits := SkipBlanks(text);
    if |digits| == 0 || !IsDigit(digits[0]) then None
    else
      var scanned := Number(digits, 0);
      if scanned.0 >= width then None else Some(scanned)
  }

  /** %d into an int: a sign may come first. */
  function ScanInt(text: string): Option<int> {
    var digits := SkipBlanks(text);
    var sign := if |digits| > 0 && digits[0] == '-' then -1 else 1;
    var rest := if |digits| > 0 && (digits[0] == '-' || digits[0] == '+') then digits[1..] else digits;
    if |rest| == 0 || !IsDigit(rest[0]) then None
    else
      var scanned: int := Number(rest, 0).0;
      if scanned >= 0x8000_0000_0000_0000 then None else Some(if sign < 0 then -scanned else scanned)
  }

  function Literal(text: string, expected: string): Option<string> {
    if expected <= text then Some(text[|expected|..]) else None
  }

  function ScanVersion(text: string): Option<int> {
    var rest := Literal(text, "v=");
    if rest.None? then None else ScanInt(rest.value)
  }

  function ScanField(text: string, name: string, width: nat): Option<(nat, string)> {
    var rest := Literal(text, name);
    if rest.None? then None else ScanUnsigned(rest.value, width)
  }

  /** Whatever follows the third number is not looked at. */
  function ScanParams(text: string): Option<(nat, nat, nat)> {
    var memory := ScanField(text, "m=", WIDTH32);
    if memory.None? then None
    else
      var time := ScanField(memory.value.1, ",t=", WIDTH32);
      if time.None? then None
      else
        var threads := ScanField(time.value.1, ",p=", 256);
        if threads.None? then None else Some((memory.value.0, time.value.0, threads.value.0))
  }

  /** strings.Split at a dollar sign. */
  function Split(text: string): (parts: seq<string>)
    ensures |parts| > 0
  {
    if |text| == 0 then [""]
    else
      var rest := Split(text[1..]);
      if text[0] == '$' then [""] + rest else [[text[0]] + rest[0]] + rest[1..]
  }

  function Parse(text: string): Option<Stored> {
    var parts := Split(text);
    if |parts| != 6 || parts[1] != "argon2id" || ScanVersion(parts[2]) != Some(ARGON_VERSION) then None
    else
      var params, salt, key := ScanParams(parts[3]), Decode(Standard, parts[4]), Decode(Standard, parts[5]);
      if params.None? || salt.None? || key.None? then None
      else
        var s := Stored(params.value.0, params.value.1, params.value.2, salt.value, key.value);
        if s.memory == 0 || s.time == 0 || s.threads == 0 || |s.key| == 0 then None else Some(s)
  }

  // ---------- scanning undoes printing ----------

  predicate NoDigitFirst(text: string) {
    |text| > 0 ==> !IsDigit(text[0])
  }

  lemma {:induction false} NumberOfDecimal(n: nat, rest: string)
    ensures Number(Decimal(n) + rest, 0) == Number(rest, n)
    ensures |Decimal(n)| > 0 && IsDigit(Decimal(n)[0]) && '$' !in Decimal(n)
  {
    if n < 10 {
      assert (Decimal(n) + rest)[1..] == rest;
    } else {
      var last := [DigitChar(n % 10)];
      NumberOfDecimal(n / 10, last + rest);
      assert Decimal(n) + rest == Decimal(n / 10) + (last + rest);
      assert (last + rest)[1..] == rest;
    }
  }

  lemma ScanUndoesDecimal(n: nat, rest: string, width: nat)
    requires n < width && NoDigitFirst(rest)
    ensures ScanUnsigned(Decimal(n) + rest, width) == Some((n, rest))
  {
    NumberOfDecimal(n, rest);
    assert SkipBlanks(Decimal(n) + rest) == Decimal(n) + rest;
  }

  lemma FieldUndone(name: string, n: nat, rest: string, width: nat)
    requires n < width && NoDigitFirst(rest)
    ensures ScanField(name + (Decimal(n) + rest), name, width) == Some((n, rest))
  {
    var text := name + (Decimal(n) + rest);
    assert text[|name|..] == Decimal(n) + rest;
    ScanUndoesDecimal(n, rest, width);
  }

  lemma ParamsHaveNoDollar(s: Stored)
    ensures '$' !in PrintParams(s)
  {
    NumberOfDecimal(s.memory, "");
    NumberOfDecimal(s.time, "");
    NumberOfDecimal(s.threads, "");
    var third := ",p=" + Decimal(s.threads);
    var second := ",t=" + (Decimal(s.time) + third);
    assert '$' !in third && '$' !in second;
  }

  lemma ParamsUndone(s: Stored)
    requires s.memory < WIDTH32 && s.time < WIDTH32 && s.threads < 256
    ensures ScanParams(PrintParams(s)) == Some((s.memory, s.time, s.threads))
  {
    var third := ",p=" + Decimal(s.threads);
    var second := ",t=" + (Decimal(s.time) + third);
    FieldUndone("m=", s.memory, second, WIDTH32);
    FieldUndone(",t=", s.time, third, WIDTH32);
    FieldUndone(",p=", s.threads, "", 256);
    assert ",p=" + (Decimal(s.threads) + "") == third;
  }

  lemma {:induction false} SplitPlain(text: string)
    requires '$' !in text
    ensures Split(text) == [text]
  {
    if |text| > 0 {
      SplitPlain(text[1..]);
      assert [text[0]] + text[1..] == text;
    }
  }

  lemma {:induction false} SplitAtDollar(head: string, tail: string)
    requires '$' !in head
    ensures Split(head + ("$" + tail)) == [head] + Split(tail)
  {
    var text := head + ("$" + tail);
    if |head| == 0 {
      assert text[1..] == tail;
    } else {
      SplitAtDollar(head[1..], tail);
      assert text[1..] == head[1..] + ("$" + tail);
      assert [head[0]] + head[1..] == head;
    }
  }

  lemma VersionUndone()
    ensures ScanVersion("v=" + Decimal(ARGON_VERSION)) == Some(ARGON_VERSION)
    ensures '$' !in "v=" + Decimal(ARGON_VERSION)
  {
    var text := "v=" + Decimal(ARGON_VERSION);
    NumberOfDecimal(ARGON_VERSION, "");
    assert Decimal(ARGON_VERSION) + "" == Decimal(ARGON_VERSION);
    assert text[2..] == Decimal(ARGON_VERSION);
  }

  /** Six parts without a dollar sign, joined by dollar signs. */
  lemma SplitSix(a: string, b: string, c: string, d: string, e: string, f: string)
    requires '$' !in a && '$' !in b && '$' !in c && '$' !in d && '$' !in e && '$' !in f
    ensures Split(a + ("$" + (b + ("$" + (c + ("$" + (d + ("$" + (e + ("$" + f)))))))))) == [a, b, c, d, e, f]
  {
    var four := d + ("$" + (e + ("$" + f)));
    SplitPlain(f);
    SplitAtDollar(e, f);
    SplitAtDollar(d, e + ("$" + f));
    SplitAtDollar(c, four);
    SplitAtDollar(b, c + ("$" + four));
    SplitAtDollar(a, b + ("$" + (c + ("$" + four))));
  }

  lemma PartsOfPrint(s: Stored)
    requires s.memory < WIDTH32 && s.time < WIDTH32 && s.threads < 256
    ensures Split(Print(s)) == ["", "argon2id", "v=" + Decimal(ARGON_VERSION), PrintParams(s),
                                Encode(Standard, s.salt), Encode(Standard, s.key)]
  {
    var version, key, salt := "v=" + Decimal(ARGON_VERSION), Encode(Standard, s.key), Encode(Standard, s.salt);
    VersionUndone();
    ParamsHaveNoDollar(s);
    DecodeUndoesEncode(Standard, s.key);
    DecodeUndoesEncode(Standard, s.salt);
    SplitSix("", "argon2id", version, PrintParams(s), salt, key);
    PrintShape(s, version, salt, key);
  }

  lemma HeadSplits(tail: string)
    ensures "$argon2id$" + tail == "" + ("$" + ("argon2id" + ("$" + tail)))
  {
    assert "$argon2id$" == "$" + ("argon2id" + "$");
  }

  lemma PrintShape(s: Stored, version: string, salt: string, key: string)
    requires version == "v=" + Decimal(ARGON_VERSION) && key == Encode(Standard, s.key) && salt == Encode(Standard, s.salt)
    ensures Print(s) == "" + ("$" + ("argon2id" + ("$" + (version + ("$" + (PrintParams(s) + ("$" + (salt + ("$" + key)))))))))
  {
    HeadSplits(version + ("$" + (PrintParams(s) + ("$" + (salt + ("$" + key))))));
  }

  /** A printed hash reads back as itself. */
  lemma ParseUndoesPrint(s: Stored)
    requires 0 < s.memory < WIDTH32 && 0 < s.time < WIDTH32 && 0 < s.threads < 256 && |s.key| > 0
    ensures Parse(Print(s)) == Some(s)
  {
    PartsOfPrint(s);
    VersionUndone();
    ParamsUndone(s);
    DecodeUndoesEncode(Standard, s.key);
    DecodeUndoesEncode(Standard, s.salt);
  }

  // ---------- issuing and accepting ----------

  /** The stored hash of a password issued under p. */
  function Issued(p: Params, kdf: Kdf, password: string, salt: seq<Byte>): Stored {
    Stored(MemoryKiB(p), p.time, p.threads, salt,
           kdf(password, salt, p.time, MemoryKiB(p), p.threads, ARGON_KEY_LENGTH))
  }

  /** The check against one row asking for an arbitrary amount of memory. */
  predicate Accepts(p: Params, s: Stored) {
    s.memory <= MaxMemoryKiB(p) && s.time <= MaxPasses(p) && s.threads <= MaxThreads(p)
  }

  /** The bounds exist for arithmetic: with them no uint32 product wraps. */
  lemma NothingWraps(p: Params)
    requires Valid(p)
    ensures MemoryKiB(p) == p.memoryMiB * 1024 && MaxMemoryKiB(p) == p.maxMemoryMiB * 1024 && MaxPasses(p) == p.time * 8
  {
  }

  /** ... and without them they would: 2^22 MiB asks argon2 for no memory at all. */
  lemma UnboundedMemoryWraps(p: Params)
    requires p.memoryMiB == 0x40_0000
    ensures !Valid(p) && MemoryKiB(p) == 0
  {
  }

  /** What the bounds of a setting mean for a hash issued under another. */
  predicate WithinReach(issuer: Params, checker: Params) {
    && issuer.memoryMiB <= checker.maxMemoryMiB
    && issuer.time <= 8 * checker.time
    && (issuer.threads <= 4 || issuer.threads <= checker.threads)
  }

  /** A hash issued under one setting is accepted under another exactly when
      its memory is within the other's ceiling, its passes within eight times
      the other's, and its lanes within four or the other's. */
  lemma AcceptedExactlyWhen(issuer: Params, checker: Params, kdf: Kdf, password: string, salt: seq<Byte>)
    requires Valid(issuer) && Valid(checker)
    ensures Accepts(checker, Issued(issuer, kdf, password, salt)) <==> WithinReach(issuer, checker)
  {
    NothingWraps(issuer);
    NothingWraps(checker);
  }

  /** The answer once a slot was found. */
  function Verdict(p: Params, kdf: Kdf, password: string, encoded: string): Option<Failure> {
    var stored := Parse(encoded);
    if stored.None? then Some(Unreadable)
    else
      var s := stored.value;
      if !Accepts(p, s) then Some(Beyond)
      else if kdf(password, s.salt, s.time, s.memory, s.threads, |s.key|) != s.key then Some(Mismatch)
      else None
  }

  ghost predicate FullKeys(kdf: Kdf) {
    forall password, salt, time, memory, threads, length :: |kdf(password, salt, time, memory, threads, length)| == length
  }

  /** What is printed reads as what was issued. */
  lemma PrintedReadsAsIssued(issuer: Params, kdf: Kdf, chosen: string, salt: seq<Byte>)
    requires Valid(issuer) && FullKeys(kdf)
    ensures Parse(Print(Issued(issuer, kdf, chosen, salt))) == Some(Issued(issuer, kdf, chosen, salt))
  {
    NothingWraps(issuer);
    ParseUndoesPrint(Issued(issuer, kdf, chosen, salt));
  }

  /** Whether the password tried gives the key of the password chosen. */
  predicate SameKey(issuer: Params, kdf: Kdf, chosen: string, tried: string, salt: seq<Byte>) {
    kdf(tried, salt, issuer.time, issuer.memoryMiB * 1024, issuer.threads, 32)
    == kdf(chosen, salt, issuer.time, issuer.memoryMiB * 1024, issuer.threads, 32)
  }

  /** A hash printed under one setting and verified under another: beyond reach
      exactly when the bounds say so, a mismatch exactly when it is within them
      and the keys differ, and right otherwise. */
  lemma PrintedHashVerdict(issuer: Params, checker: Params, kdf: Kdf, chosen: string, tried: string, salt: seq<Byte>)
    requires Valid(issuer) && Valid(checker) && FullKeys(kdf)
    ensures var verdict := Verdict(checker, kdf, tried, Print(Issued(issuer, kdf, chosen, salt)));
            && (verdict == Some(Beyond) <==> !WithinReach(issuer, checker))
            && (verdict == Some(Mismatch) <==> WithinReach(issuer, checker) && !SameKey(issuer, kdf, chosen, tried, salt))
            && (verdict == None <==> WithinReach(issuer, checker) && SameKey(issuer, kdf, chosen, tried, salt))
  {
    NothingWraps(issuer);
    PrintedReadsAsIssued(issuer, kdf, chosen, salt);
    AcceptedExactlyWhen(issuer, checker, kdf, chosen, salt);
  }

  /** The setting that issued a hash accepts it, and the right password opens it. */
  lemma RightPasswordVerifies(p: Params, kdf: Kdf, password: string, salt: seq<Byte>)
    requires Valid(p) && FullKeys(kdf)
    ensures Verdict(p, kdf, password, Print(Issued(p, kdf, password, salt))) == None
  {
    PrintedHashVerdict(p, p, kdf, password, password, salt);
  }

  /** No row, whatever it says, makes the process work beyond its setting: what
      is hashed at all is within the ceiling of memory, eight times the passes
      and four lanes or the setting's, and is never nothing. */
  lemma NoRowAsksForMore(p: Params, kdf: Kdf, password: string, encoded: string)
    requires Valid(p)
    ensures var verdict := Verdict(p, kdf, password, encoded);
            match Parse(encoded)
            case None => verdict == Some(Unreadable)
            case Some(s) =>
              && 0 < s.memory && 0 < s.time && 0 < s.threads && 0 < |s.key|
              && (verdict == Some(Beyond) <==>
                    s.memory > p.maxMemoryMiB * 1024 || s.time > 8 * p.time || (s.threads > 4 && s.threads > p.threads))
  {
    NothingWraps(p);
  }

  lemma TwoDigits(n: nat)
    requires 10 <= n < 100
    ensures Decimal(n) == [DigitChar(n / 10), DigitChar(n % 10)]
  {
    assert Decimal(n / 10) == [DigitChar(n / 10)];
  }

  lemma VersionText()
    ensures "$argon2id$" + ("v=" + Decimal(ARGON_VERSION)) == "$argon2id$v=19"
  {
    TwoDigits(19);
  }

  /** The printed form, as other programs read it. */
  lemma PrintedForm(s: Stored)
    ensures Print(s) == "$argon2id$v=19" + "$m=" + Decimal(s.memory) + ",t=" + Decimal(s.time) + ",p=" + Decimal(s.threads)
                        + "$" + Encode(Standard, s.salt) + "$" + Encode(Standard, s.key)
  {
    VersionText();
    Joined("v=" + Decimal(ARGON_VERSION), Decimal(s.memory), Decimal(s.time), Decimal(s.threads),
           Encode(Standard, s.salt), Encode(Standard, s.key));
  }

  lemma Joined(version: string, memory: string, time: string, threads: string, salt: string, key: string)
    ensures "$argon2id$" + (version + ("$" + (("m=" + (memory + (",t=" + (time + (",p=" + threads))))) + ("$" + (salt + ("$" + key))))))
            == "$argon2id$" + version + "$m=" + memory + ",t=" + time + ",p=" + threads + "$" + salt + "$" + key
  {
    assert "$m=" == "$" + "m=";
  }

  // ---------- the slots ----------

  /** One set of parameters and the queue that bounds how many hashes run. */
  class Hasher {
    const params: Params
    var taken: nat

    ghost predicate Fits()
      reads this
    {
      taken <= params.maxConcurrent
    }

    constructor (params: Params)
      requires Valid(params)
      ensures this.params == params && taken == 0 && Fits()
    {
      this.params, taken := params, 0;
    }

    /** Waits as long as the budget lasts; busy means every slot was still taken. */
    method Acquire() returns (ok: bool)
      requires Fits()
      modifies this
      ensures Fits() && ok == (old(taken) < params.maxConcurrent)
      ensures taken == old(taken) + if ok then 1 else 0
    {
      if taken >= params.maxConcurrent {
        return false;
      }
      taken := taken + 1;
      return true;
    }

    method Release()
      requires Fits() && taken > 0
      modifies this
      ensures Fits() && taken == old(taken) - 1
    {
      taken := taken - 1;
    }

    method Hash(kdf: Kdf, password: string, salt: seq<Byte>) returns (encoded: Option<string>)
      requires Fits()
      modifies this
      ensures taken == old(taken)
      ensures encoded == if old(taken) < params.maxConcurrent then Some(Print(Issued(params, kdf, password, salt))) else None
    {
      var ok := Acquire();
      if !ok {
        return None;
      }
      var key := kdf(password, salt, params.time, MemoryKiB(params), params.threads, ARGON_KEY_LENGTH);
      encoded := Some(Print(Stored(MemoryKiB(params), params.time, params.threads, salt, key)));
      Release();
    }

    /** A hash that cannot be read, or asks for too much, is refused without
        waiting; Busy is only said when every slot is taken. A slot taken is given back. */
    method Verify(kdf: Kdf, password: string, encoded: string) returns (failure: Option<Failure>)
      requires Fits()
      modifies this
      ensures taken == old(taken)
      ensures var verdict := Verdict(params, kdf, password, encoded);
              failure == if old(taken) < params.maxConcurrent || verdict in {Some(Unreadable), Some(Beyond)} then verdict
                         else Some(Busy)
    {
      var stored := Parse(encoded);
      if stored.None? {
        return Some(Unreadable);
      }
      var s := stored.value;
      if s.memory > MaxMemoryKiB(params) || s.time > MaxPasses(params) || s.threads > MaxThreads(params) {
        return Some(Beyond);
      }
      var ok := Acquire();
      if !ok {
        return Some(Busy);
      }
      var got := kdf(password, s.salt, s.time, s.memory, s.threads, |s.key|);
      Release();
      if got != s.key {
        return Some(Mismatch);
      }
      return None;
    }
  }
}
