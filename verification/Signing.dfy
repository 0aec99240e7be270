/** The check that signing changed nothing but the signature (scripts/release/windows-signing.py). */
module Signing {
  import opened Basics

  const CHECKSUM_OFFSET := 64
  const SECURITY_DIRECTORY := 4
  const CERTIFICATE_ALIGNMENT := 8

  // ----- fields

  function Read16(data: Bytes, at: nat): nat
    requires at + 2 <= |data|
  {
    data[at] as int + 256 * data[at + 1] as int
  }

  function Read32(data: Bytes, at: nat): nat
    requires at + 4 <= |data|
  {
    data[at] as int + 0x100 * data[at + 1] as int + 0x1_0000 * data[at + 2] as int + 0x100_0000 * data[at + 3] as int
  }

  function Slice(data: Bytes, from: nat, to: nat): Bytes
    requires from <= to
  {
    if to <= |data| then data[from..to] else if from <= |data| then data[from..] else []
  }

  /** Where the checksum and the certificate table entry stand, and what the entry says. */
  datatype Table = Table(checksum: nat, entry: nat, offset: nat, size: nat)

  datatype Error =
    | NotExecutable | NoOptionalHeader | NoDirectory | BadTrailingTable | HeadersChanged
    | NoSignature | TableMoved | ContentsChanged

  const MZ: Bytes := [0x4D, 0x5A]
  const PE: Bytes := [0x50, 0x45, 0, 0]

  /** Offsets of the directory count and of the directories, by the header's magic. */
  function Directories(magic: nat): Option<(nat, nat)> {
    if magic == 0x10B then Some((92, 96)) else if magic == 0x20B then Some((108, 112)) else None
  }

  /** `certificate_table` */
  function CertificateTable(data: Bytes): Result<Table, Error> {
    if |data| < 0x40 || data[..2] != MZ then Err(NotExecutable)
    else
      var optional := Read32(data, 0x3C) + 24;
      if Slice(data, optional - 24, optional - 20) != PE || |data| < optional + 2 then Err(NotExecutable)
      else
        var found := Directories(Read16(data, optional));
        if found.None? then Err(NoOptionalHeader)
        else
          var (count, directories) := found.value;
          var entry := optional + directories + SECURITY_DIRECTORY * 8;
          if |data| < entry + 8 || Read32(data, optional + count) <= SECURITY_DIRECTORY then Err(NoDirectory)
          else Ok(Table(optional + CHECKSUM_OFFSET, entry, Read32(data, entry), Read32(data, entry + 4)))
  }

  // ----- what is accepted

  predicate Signed(table: Table) { table.offset != 0 || table.size != 0 }

  /** An aligned table after the headers, up to the end of the image. */
  predicate Trailing(table: Table, data: Bytes) {
    && table.size > 0 && table.offset >= table.entry + 8 && table.offset % CERTIFICATE_ALIGNMENT == 0
    && table.offset + table.size == |data|
  }

  /** The length of the image before its table. */
  function Unsigned(table: Table, data: Bytes): nat { if Signed(table) then table.offset else |data| }

  /** Whether byte `i` belongs to a field a signature sets. */
  predicate InField(table: Table, i: int) {
    table.checksum <= i < table.checksum + 4 || table.entry <= i < table.entry + 8
  }

  /** The two agree up to `n`, but for what a signature sets. */
  ghost predicate Agree(a: Bytes, b: Bytes, n: nat, table: Table) {
    n <= |a| && n <= |b| && forall i :: 0 <= i < n && !InField(table, i) ==> a[i] == b[i]
  }

  /** `signed` is `original` with its trailing table added, or replaced in place. */
  ghost predicate Accepts(signed: Bytes, original: Bytes) {
    CertificateTable(original).Ok? && CertificateTable(signed).Ok? &&
    var was, now := CertificateTable(original).value, CertificateTable(signed).value;
    var n := Unsigned(was, original);
    && (Signed(was) ==> Trailing(was, original) && now.offset == was.offset)
    && now.checksum == was.checksum && now.entry == was.entry && Trailing(now, signed)
    && n <= now.offset < n + CERTIFICATE_ALIGNMENT
    && (forall i :: n <= i < now.offset ==> signed[i] == 0)
    && Agree(signed, original, n, was)
  }

  function Zeroed(data: Bytes, table: Table): Bytes {
    seq(|data|, i => if InField(table, i) then 0 else if 0 <= i < |data| then data[i] else 0)
  }

  lemma ZeroedAgree(a: Bytes, b: Bytes, table: Table)
    requires |a| == |b|
    ensures Zeroed(a, table) == Zeroed(b, table) <==> Agree(a, b, |a|, table)
  {
    var x, y := Zeroed(a, table), Zeroed(b, table);
    if x == y {
      forall i | 0 <= i < |a| && !InField(table, i) ensures a[i] == b[i] { assert x[i] == y[i]; }
    }
  }

  method ClearFields(image: array<byte>, table: Table)
    requires table.checksum + 4 <= image.Length && table.entry + 8 <= image.Length
    modifies image
    ensures image[..] == Zeroed(old(image[..]), table)
  {
    ghost var was := image[..];
    for k := 0 to 4
      invariant forall i :: 0 <= i < image.Length ==>
        image[i] == if table.checksum <= i < table.checksum + k then 0 else was[i]
    {
      image[table.checksum + k] := 0;
    }
    ghost var mid := image[..];
    for k := 0 to 8
      invariant forall i :: 0 <= i < image.Length ==>
        image[i] == if table.entry <= i < table.entry + k then 0 else mid[i]
    {
      image[table.entry + k] := 0;
    }
  }

  method AllZero(data: Bytes) returns (r: bool)
    ensures r <==> forall i :: 0 <= i < |data| ==> data[i] == 0
  {
    for i := 0 to |data|
      invariant forall j :: 0 <= j < i ==> data[j] == 0
    {
      if data[i] != 0 { return false; }
    }
    r := true;
  }

  lemma TableBounds(data: Bytes)
    requires CertificateTable(data).Ok?
    ensures var t := CertificateTable(data).value; t.checksum + 4 < t.entry && t.entry + 8 <= |data|
  {}

  /** The source's order of checks: nothing is wrong exactly when the image is accepted. */
  method WithoutSignature(signed: Bytes, original: Bytes) returns (r: Result<(), Error>)
    ensures r.Ok? <==> Accepts(signed, original)
    ensures CertificateTable(original).Err? ==> r == Err(CertificateTable(original).error)
  {
    hide CertificateTable;
    hide Zeroed;
    var read := CertificateTable(original);
    if read.Err? { return Err(read.error); }
    var was := read.value;
    TableBounds(original);
    var kept := original;
    if Signed(was) {
      if !Trailing(was, original) { return Err(BadTrailingTable); }
      kept := original[..was.offset];
    }
    var again := CertificateTable(signed);
    if again.Err? { return Err(again.error); }
    var now := again.value;
    if now.checksum != was.checksum || now.entry != was.entry { return Err(HeadersChanged); }
    if !Trailing(now, signed) { return Err(NoSignature); }
    if Signed(was) && now.offset != was.offset { return Err(TableMoved); }
    if !(0 <= now.offset - |kept| < CERTIFICATE_ALIGNMENT) { return Err(ContentsChanged); }
    var padding := signed[|kept|..now.offset];
    var zero := AllZero(padding);
    if !zero {
      assert exists i :: 0 <= i < |padding| && padding[i] != 0;
      return Err(ContentsChanged);
    }
    forall i | |kept| <= i < now.offset ensures signed[i] == 0 { assert padding[i - |kept|] == 0; }
    var n := |kept|;
    var stripped := new byte[n](i requires 0 <= i < n => signed[i]);
    var image := new byte[n](i requires 0 <= i < n => kept[i]);
    assert stripped[..] == signed[..n] && image[..] == kept;
    ClearFields(stripped, was);
    ClearFields(image, was);
    ZeroedAgree(signed[..n], kept, was);
    if stripped[..] != image[..] { return Err(ContentsChanged); }
    r := Ok(());
  }

  // ----- the fields a signature sets are none of those the header is found by

  /** An image that agrees up to past its directory has its fields in the same places. */
  lemma HeaderStays(a: Bytes, b: Bytes, n: nat)
    requires CertificateTable(a).Ok?
    requires Agree(b, a, n, CertificateTable(a).value) && CertificateTable(a).value.entry + 8 <= n
    ensures CertificateTable(b).Ok?
    ensures var t, u := CertificateTable(a).value, CertificateTable(b).value;
      u == t.(offset := Read32(b, t.entry), size := Read32(b, t.entry + 4))
  {
    var t := CertificateTable(a).value;
    var optional := Read32(a, 0x3C) + 24;
    assert t.checksum == optional + 64 && t.entry >= optional + 128;
    var count := Directories(Read16(a, optional)).value.0;
    forall i | 0 <= i < n && (i < optional + 64 || optional + count <= i < optional + count + 4) ensures b[i] == a[i] {
      assert !InField(t, i);
    }
    assert forall i :: 0 <= i < optional + 64 ==> b[i] == a[i];
    assert b[..2] == a[..2];
    assert b[optional - 24..optional - 20] == a[optional - 24..optional - 20];
  }

  /** Acceptance composes: an image accepted against an accepted one is accepted against the first. */
  lemma AcceptanceComposes(first: Bytes, second: Bytes, original: Bytes)
    requires Accepts(first, original) && Accepts(second, first)
    ensures Accepts(second, original)
  {
    hide CertificateTable;
    var was, mid, now :=
      CertificateTable(original).value, CertificateTable(first).value, CertificateTable(second).value;
    var n := Unsigned(was, original);
    TableBounds(original);
    TableBounds(first);
    assert Signed(mid) && n <= mid.offset == now.offset;
    forall i | n <= i < now.offset ensures second[i] == 0 {
      assert !InField(mid, i);
    }
    forall i | 0 <= i < n && !InField(was, i) ensures second[i] == original[i] {
      assert !InField(mid, i);
    }
  }

  // ----- every signature is accepted

  function Put32(n: nat): (r: Bytes)
    ensures |r| == 4
  {
    [n % 0x100, n / 0x100 % 0x100, n / 0x1_0000 % 0x100, n / 0x100_0000 % 0x100]
  }

  lemma Digits(n: nat)
    requires n < 0x1_0000_0000
    ensures n == n % 0x100 + 0x100 * (n / 0x100 % 0x100) + 0x1_0000 * (n / 0x1_0000 % 0x100)
               + 0x100_0000 * (n / 0x100_0000 % 0x100)
  {
    var a, b, c := n / 0x100, n / 0x1_0000, n / 0x100_0000;
    assert n == 0x100 * a + n % 0x100;
    assert b == a / 0x100 && a == 0x100 * b + a % 0x100;
    assert c == b / 0x100 && b == 0x100 * c + b % 0x100;
    assert c % 0x100 == c;
  }

  lemma ReadPut(data: Bytes, at: nat, n: nat)
    requires at + 4 <= |data| && n < 0x1_0000_0000 && data[at..at + 4] == Put32(n)
    ensures Read32(data, at) == n
  {
    var s := data[at..at + 4];
    assert s[0] == data[at] && s[1] == data[at + 1] && s[2] == data[at + 2] && s[3] == data[at + 3];
    Digits(n);
  }

  function Aligned(n: nat): (r: nat)
    ensures n <= r < n + 8 && r % 8 == 0
  {
    (n + 7) / 8 * 8
  }

  /** `field` at `at`. */
  function Put(data: Bytes, at: nat, field: Bytes): Bytes
    requires at + |field| <= |data|
  {
    data[..at] + field + data[at + |field|..]
  }

  /** The image signed: its old table gone, zeros up to the alignment, the new table at the end, and
      the entry and the checksum set. */
  function Sign(original: Bytes, checksum: nat, certificates: Bytes): Bytes
    requires CertificateTable(original).Ok?
    requires Signed(CertificateTable(original).value) ==> Trailing(CertificateTable(original).value, original)
  {
    var table := CertificateTable(original).value;
    var n := Unsigned(table, original);
    var offset := Aligned(n);
    TableBounds(original);
    var summed := Put(original[..n], table.checksum, Put32(checksum));
    Put(summed, table.entry, Put32(offset) + Put32(|certificates|)) + seq(offset - n, _ => 0) + certificates
  }

  lemma PutIs(data: Bytes, at: nat, field: Bytes)
    requires at + |field| <= |data|
    ensures var r := Put(data, at, field);
      && |r| == |data| && r[at..at + |field|] == field
      && forall i :: 0 <= i < |data| && !(at <= i < at + |field|) ==> r[i] == data[i]
  {}

  lemma SignIs(original: Bytes, checksum: nat, certificates: Bytes)
    requires CertificateTable(original).Ok?
    requires Signed(CertificateTable(original).value) ==> Trailing(CertificateTable(original).value, original)
    ensures var table := CertificateTable(original).value;
      var n := Unsigned(table, original);
      var offset := Aligned(n);
      var signed := Sign(original, checksum, certificates);
      && table.entry + 8 <= n <= |original| && |signed| == offset + |certificates|
      && signed[table.entry..table.entry + 4] == Put32(offset)
      && signed[table.entry + 4..table.entry + 8] == Put32(|certificates|)
      && (forall i :: n <= i < offset ==> signed[i] == 0)
      && Agree(signed, original, n, table)
  {
    hide CertificateTable;
    var table := CertificateTable(original).value;
    TableBounds(original);
    var n := Unsigned(table, original);
    var offset := Aligned(n);
    var summed := Put(original[..n], table.checksum, Put32(checksum));
    PutIs(original[..n], table.checksum, Put32(checksum));
    var field := Put32(offset) + Put32(|certificates|);
    var set_ := Put(summed, table.entry, field);
    PutIs(summed, table.entry, field);
    hide Put32;
    hide Put;
    hide Aligned;
    var signed := Sign(original, checksum, certificates);
    assert forall i :: 0 <= i < n ==> signed[i] == set_[i];
    assert signed[table.entry..table.entry + 8] == field;
    assert signed[table.entry..table.entry + 4] == field[..4];
    assert signed[table.entry + 4..table.entry + 8] == field[4..];
  }

  /** Adding an aligned trailing table to any unsigned image, or replacing a trailing one, is
      always accepted. */
  lemma SigningIsAccepted(original: Bytes, checksum: nat, certificates: Bytes)
    requires CertificateTable(original).Ok?
    requires Signed(CertificateTable(original).value) ==> Trailing(CertificateTable(original).value, original)
    requires certificates != [] && |Sign(original, checksum, certificates)| < 0x1_0000_0000
    ensures Accepts(Sign(original, checksum, certificates), original)
  {
    hide CertificateTable;
    hide Sign;
    hide Put32;
    var table := CertificateTable(original).value;
    var n := Unsigned(table, original);
    var signed := Sign(original, checksum, certificates);
    SignIs(original, checksum, certificates);
    HeaderStays(original, signed, n);
    ReadPut(signed, table.entry, Aligned(n));
    ReadPut(signed, table.entry + 4, |certificates|);
    if Signed(table) { AlignedAlready(n); }
  }

  lemma AlignedAlready(n: nat)
    requires n % 8 == 0
    ensures Aligned(n) == n
  {}
}
