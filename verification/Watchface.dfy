/** The id field of a watchface file: twelve bytes at 0x28. */
module Watchface {
  import opened Common

  newtype Byte = x: int | 0 <= x < 256

  const HEADER := 0x34
  const ID_START := 0x28
  const ID_LENGTH := 12

  predicate IsVela(data: seq<Byte>) {
    |data| >= HEADER && data[..4] == [0x5a, 0xa5, 0x34, 0x12]
  }

  predicate IsIdByte(b: Byte) {
    0x61 <= b <= 0x7a || 0x41 <= b <= 0x5a || 0x30 <= b <= 0x39 || b == 0x5f || b == 0x2d
  }

  /** The bytes before the first zero byte. */
  function Prefix(field: seq<Byte>): (p: seq<Byte>)
    ensures |p| <= |field| && p == field[..|p|] && 0 !in p
    ensures |p| < |field| ==> field[|p|] == 0
  {
    if field == [] || field[0] == 0 then [] else [field[0]] + Prefix(field[1..])
  }

  predicate IsId(id: seq<Byte>) {
    && (exists i :: 0 <= i < |id| && id[i] != 0x30)
    && forall i :: 0 <= i < |id| ==> IsIdByte(id[i])
  }

  /** The id a file carries; empty when it has none. */
  function IdOf(data: seq<Byte>): seq<Byte> {
    if |data| < HEADER then []
    else
      var id := Prefix(data[ID_START..ID_START + ID_LENGTH]);
      if IsId(id) then id else []
  }

  /** watchfaceID */
  method WatchfaceId(data: array<Byte>) returns (id: seq<Byte>)
    ensures id == IdOf(data[..])
  {
    if data.Length < HEADER {
      return [];
    }
    var value := data[ID_START..ID_START + ID_LENGTH];
    var end := 0;
    while end < |value| && value[end] != 0
      invariant 0 <= end <= |value|
      invariant forall i :: 0 <= i < end ==> value[i] != 0
    {
      end := end + 1;
    }
    id := value[..end];
    PrefixIs(value, end);
    assert data[..][ID_START..ID_START + ID_LENGTH] == value;
    if forall i :: 0 <= i < |id| ==> id[i] == 0x30 {
      return [];
    }
    for i := 0 to |id|
      invariant forall j :: 0 <= j < i ==> IsIdByte(id[j])
    {
      if !IsIdByte(id[i]) {
        return [];
      }
    }
  }

  lemma PrefixIff(field: seq<Byte>, id: seq<Byte>)
    ensures Prefix(field) == id <==>
            id <= field && 0 !in id && (|id| < |field| ==> field[|id|] == 0)
  {
    if id <= field && 0 !in id && (|id| < |field| ==> field[|id|] == 0) {
      assert forall i :: 0 <= i < |id| ==> field[i] == id[i] && id[i] in id;
      PrefixIs(field, |id|);
    }
  }

  /** Letters, digits, underscore and hyphen, as characters. */
  lemma IdBytes(b: Byte)
    ensures IsIdByte(b) <==>
            var c := b as char; 'a' <= c <= 'z' || 'A' <= c <= 'Z' || '0' <= c <= '9' || c == '_' || c == '-'
  {
  }

  /** A file has the id that fills its field up to the first zero byte, if that has
    only such characters and is not all zeros. */
  lemma IdIff(data: seq<Byte>, id: seq<Byte>)
    requires |data| >= 52 && id != []
    ensures IdOf(data) == id <==>
            && id <= data[40..52] && (|id| < 12 ==> data[40 + |id|] == 0)
            && (forall b :: b in id ==> IsIdByte(b))
            && exists i :: 0 <= i < |id| && id[i] != 0x30
  {
    var field := data[ID_START..ID_START + ID_LENGTH];
    PrefixIff(field, id);
    assert (forall b :: b in id ==> IsIdByte(b)) <==> forall i :: 0 <= i < |id| ==> IsIdByte(id[i]);
  }

  lemma PrefixIs(field: seq<Byte>, end: nat)
    requires end <= |field| && (forall i :: 0 <= i < end ==> field[i] != 0) && (end < |field| ==> field[end] == 0)
    ensures Prefix(field) == field[..end]
  {
  }

  // -------------------------------------------------------------- a random id

  /** Nine to twelve decimal digits, the first of them not zero. */
  function IdFrom(random: seq<Byte>): seq<Byte>
    requires |random| == 13
  {
    var n := 9 + (random[0] % 4) as int;
    [0x31 + random[1] % 9] + seq(n - 1, i requires 0 <= i < n - 1 => 0x30 + random[i + 2] % 10)
  }

  /** randomWatchfaceID; `random` is None when no randomness was to be had. */
  method RandomWatchfaceId(random: Option<seq<Byte>>) returns (id: Option<seq<Byte>>)
    requires random.Some? ==> |random.value| == 13
    ensures id == if random.Some? then Some(IdFrom(random.value)) else None
  {
    if random.None? {
      return None;
    }
    var bytes := random.value;
    var length := 9 + (bytes[0] % 4) as int;
    var result := new Byte[length];
    result[0] := 0x31 + bytes[1] % 9;
    for index := 1 to length
      invariant result[0] == 0x31 + bytes[1] % 9
      invariant forall j :: 1 <= j < index ==> result[j] == 0x30 + bytes[j + 1] % 10
    {
      result[index] := 0x30 + bytes[index + 1] % 10;
    }
    assert result[..] == IdFrom(bytes);
    id := Some(result[..]);
  }

  lemma RandomIdIsId(random: seq<Byte>)
    requires |random| == 13
    ensures var id := IdFrom(random); 9 <= |id| <= ID_LENGTH && IsId(id) && 0 !in id && id[0] != 0x30
  {
    var id := IdFrom(random);
    assert id[0] == 0x31 + random[1] % 9;
    forall i | 0 <= i < |id| ensures IsIdByte(id[i]) && id[i] != 0 {
      if i > 0 { assert id[i] == 0x30 + random[i + 1] % 10; }
    }
  }

  // ------------------------------------------------------------ normalization

  /** The file with `id` written over its id field, padded with zeros. */
  function WithId(data: seq<Byte>, id: seq<Byte>): (payload: seq<Byte>)
    requires |data| >= HEADER && |id| <= ID_LENGTH
    ensures |payload| == |data|
  {
    data[..ID_START] + id + seq(ID_LENGTH - |id|, i => 0) + data[ID_START + ID_LENGTH..]
  }

  datatype Normalized = Failed | Normalized(payload: array<Byte>, id: seq<Byte>, changed: bool)

  /** normalizeWatchface, for a file that was recognized as a watchface. A file
    with an id comes back as it is, the same slice; otherwise a copy does. */
  method NormalizeWatchface(data: array<Byte>, random: Option<seq<Byte>>) returns (r: Normalized)
    requires data.Length >= HEADER && (random.Some? ==> |random.value| == 13)
    ensures r.Failed? <==> IdOf(data[..]) == [] && random.None?
    ensures r.Normalized? ==>
              && r.changed == (IdOf(data[..]) == [])
              && (!r.changed ==> r.payload == data && r.id == IdOf(data[..]))
              && (r.changed ==>
                    && fresh(r.payload) && r.id == IdFrom(random.value)
                    && |r.id| <= ID_LENGTH && r.payload[..] == WithId(data[..], r.id))
    ensures data[..] == old(data[..])
  {
    var id := WatchfaceId(data);
    if id != [] {
      return Normalized(data, id, false);
    }
    var generated := RandomWatchfaceId(random);
    if generated.None? {
      return Failed;
    }
    RandomIdIsId(random.value);
    var payload := Stamp(data, generated.value);
    r := Normalized(payload, generated.value, true);
  }

  /** bytes.Clone, clear and copy. */
  method Stamp(data: array<Byte>, id: seq<Byte>) returns (payload: array<Byte>)
    requires data.Length >= HEADER && |id| <= ID_LENGTH
    ensures fresh(payload) && payload[..] == WithId(data[..], id)
  {
    payload := new Byte[data.Length];
    forall i | 0 <= i < data.Length {
      payload[i] := data[i];
    }
    for i := ID_START to ID_START + ID_LENGTH
      invariant forall j :: ID_START <= j < i ==> payload[j] == 0
      invariant forall j :: 0 <= j < data.Length && !(ID_START <= j < i) ==> payload[j] == data[j]
    {
      payload[i] := 0;
    }
    for i := ID_START to ID_START + |id|
      invariant forall j :: ID_START <= j < i ==> payload[j] == id[j - ID_START]
      invariant forall j :: i <= j < ID_START + ID_LENGTH ==> payload[j] == 0
      invariant forall j :: 0 <= j < data.Length && !(ID_START <= j < ID_START + ID_LENGTH) ==> payload[j] == data[j]
    {
      payload[i] := id[i - ID_START];
    }
    assert payload[..] == WithId(data[..], id);
  }

  /** watchfaceVersionCode */
  function VersionCode(data: seq<Byte>): Option<int> {
    if |data| < 7 then None else Some(data[4] as int + data[5] as int * 0x100 + data[6] as int * 0x1_0000)
  }

  // ------------------------------------------------------------- main results

  /** Writing an id and reading it back gives that id, whatever the file. */
  lemma WrittenIdIsRead(data: seq<Byte>, id: seq<Byte>)
    requires |data| >= HEADER && 1 <= |id| <= ID_LENGTH && IsId(id)
    ensures IdOf(WithId(data, id)) == id
  {
    var field := WithId(data, id)[ID_START..ID_START + ID_LENGTH];
    assert field == id + seq(ID_LENGTH - |id|, i => 0);
    PrefixIs(field, |id|);
    assert field[..|id|] == id;
  }

  /** Nothing but the id field changes: not the length, nor any other byte, and
    so neither the magic nor the version code. */
  lemma OnlyTheFieldChanges(data: seq<Byte>, id: seq<Byte>)
    requires |data| >= HEADER && |id| <= ID_LENGTH
    ensures var payload := WithId(data, id);
            && |payload| == |data|
            && (forall i :: 0 <= i < |data| && !(ID_START <= i < ID_START + ID_LENGTH) ==> payload[i] == data[i])
            && (IsVela(payload) <==> IsVela(data)) && VersionCode(payload) == VersionCode(data)
  {
  }

  /** The value that normalization hands on. */
  function NormalForm(data: seq<Byte>, random: seq<Byte>): seq<Byte>
    requires |data| >= HEADER && |random| == 13
  {
    if IdOf(data) != [] then data else RandomIdIsId(random); WithId(data, IdFrom(random))
  }

  /** A normalized file has an id, and normalizing it again, with whatever
    randomness, changes nothing. */
  lemma NormalFormIsStable(data: seq<Byte>, random: seq<Byte>, again: seq<Byte>)
    requires |data| >= HEADER && |random| == 13 && |again| == 13
    ensures var payload := NormalForm(data, random);
            && IdOf(payload) == (if IdOf(data) != [] then IdOf(data) else IdFrom(random))
            && IdOf(payload) != [] && NormalForm(payload, again) == payload
  {
    RandomIdIsId(random);
    WrittenIdIsRead(data, IdFrom(random));
  }
}
