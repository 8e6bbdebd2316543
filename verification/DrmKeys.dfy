/** internal/service/drm_service.go and the places that hand the key on: key rows, their repair,
    the key material a transcode task carries, and the bytes that are served. */
module DrmKeys {
  import opened Basics

  datatype DrmKey = DrmKey(video: string, keyId: string, contentKey: string, iv: string, keyUrl: string)

  /** What the random source hands out for one call: three strings of 16 hex-encoded bytes. */
  datatype Material = Material(keyId: string, contentKey: string, iv: string)

  datatype DrmParams = DrmParams(keyId: string, contentKey: string, iv: string, keyUrl: string)

  const IV_DIGITS: nat := 32

  function KeyUrl(base: string, keyId: string): string {
    base + "/api/v1/drm/key/" + keyId
  }

  /** The position of the video's first key row, or |keys|. */
  function KeyIndex(keys: seq<DrmKey>, video: string): (i: nat)
    ensures i <= |keys|
    ensures i < |keys| ==> keys[i].video == video
    ensures forall j :: 0 <= j < i ==> keys[j].video != video
  {
    if keys == [] || keys[0].video == video then 0 else 1 + KeyIndex(keys[1..], video)
  }

  function NewKey(video: string, base: string, rnd: Material): DrmKey {
    DrmKey(video, rnd.keyId, rnd.contentKey, rnd.iv, KeyUrl(base, rnd.keyId))
  }

  /** The backfill of an old key URL and of an IV that is not 32 digits long. */
  function Repair(key: DrmKey, base: string, rnd: Material): DrmKey {
    key.(keyUrl := if key.keyUrl == "" || Contains(key.keyUrl, "/clearkey/") then KeyUrl(base, key.keyId) else key.keyUrl,
         iv := if |key.iv| != IV_DIGITS then rnd.iv else key.iv)
  }

  function DropKeys(keys: seq<DrmKey>, video: string): seq<DrmKey> {
    if keys == [] then []
    else (if keys[0].video == video then [] else [keys[0]]) + DropKeys(keys[1..], video)
  }

  /** Zeros in front until there are 32 digits. */
  function PadIV(iv: string): (padded: string)
    decreases IV_DIGITS - |iv|
  {
    if |iv| < IV_DIGITS then PadIV("0" + iv) else iv
  }

  function ParamsOf(key: DrmKey): DrmParams {
    DrmParams(key.keyId, key.contentKey, PadIV(key.iv), key.keyUrl)
  }

  // ---- Hexadecimal ----

  type Byte = n: int | 0 <= n < 256

  function HexDigit(n: nat): char
    requires n < 16
  {
    if n < 10 then '0' + n as char else 'a' + (n - 10) as char
  }

  predicate IsHexDigit(c: char) {
    '0' <= c <= '9' || 'a' <= c <= 'f' || 'A' <= c <= 'F'
  }

  function DigitValue(c: char): (n: nat)
    requires IsHexDigit(c)
    ensures n < 16
  {
    if '0' <= c <= '9' then c as int - '0' as int
    else if 'a' <= c <= 'f' then c as int - 'a' as int + 10
    else c as int - 'A' as int + 10
  }

  predicate IsHex(s: string) {
    forall c :: c in s ==> IsHexDigit(c)
  }

  function HexEncode(bytes: seq<Byte>): string {
    if bytes == [] then ""
    else [HexDigit(bytes[0] / 16), HexDigit(bytes[0] % 16)] + HexEncode(bytes[1..])
  }

  /** The decoder: an odd length or a foreign digit is an error. */
  function HexDecode(s: string): Option<seq<Byte>> {
    if s == "" then Some([])
    else if |s| == 1 || !IsHexDigit(s[0]) || !IsHexDigit(s[1]) then None
    else
      match HexDecode(s[2..])
      case None => None
      case Some(rest) => Some([16 * DigitValue(s[0]) + DigitValue(s[1])] + rest)
  }

  lemma {:induction false} DecodeUndoesEncode(bytes: seq<Byte>)
    ensures HexDecode(HexEncode(bytes)) == Some(bytes)
    ensures |HexEncode(bytes)| == 2 * |bytes| && IsHex(HexEncode(bytes))
  {
    if bytes != [] {
      DecodeUndoesEncode(bytes[1..]);
      assert HexEncode(bytes)[2..] == HexEncode(bytes[1..]);
      assert bytes == [bytes[0]] + bytes[1..];
    }
  }

  /** Exactly the strings of an even number of digits decode, two digits a byte. */
  lemma {:induction false} DecodesIff(s: string)
    ensures HexDecode(s).Some? <==> |s| % 2 == 0 && IsHex(s)
    ensures HexDecode(s).Some? ==> 2 * |HexDecode(s).value| == |s|
  {
    if |s| >= 2 {
      DecodesIff(s[2..]);
      assert s == [s[0], s[1]] + s[2..];
    } else if |s| == 1 {
      assert s[0] in s;
    }
  }

  // ---- The initialisation vector ----

  function HexNumber(s: string): nat
    requires IsHex(s)
  {
    if s == "" then 0 else 16 * HexNumber(s[..|s| - 1]) + DigitValue(s[|s| - 1])
  }

  lemma {:induction false} ZeroInFront(s: string)
    requires IsHex(s)
    ensures IsHex("0" + s) && HexNumber("0" + s) == HexNumber(s)
  {
    if s != "" {
      ZeroInFront(s[..|s| - 1]);
      assert ("0" + s)[..|s|] == "0" + s[..|s| - 1];
    }
  }

  /** Padding yields 32 digits of the same value whenever there were at most 32. */
  lemma {:induction false} PaddedIV(iv: string)
    requires IsHex(iv)
    ensures IsHex(PadIV(iv)) && HexNumber(PadIV(iv)) == HexNumber(iv)
    ensures |PadIV(iv)| == if |iv| <= IV_DIGITS then IV_DIGITS else |iv|
    decreases IV_DIGITS - |iv|
  {
    if |iv| < IV_DIGITS {
      ZeroInFront(iv);
      PaddedIV("0" + iv);
    }
  }

  /** The padding loop of StartTranscode. */
  method Pad(iv: string) returns (padded: string)
    ensures padded == PadIV(iv)
  {
    padded := iv;
    while |padded| < 32
      invariant PadIV(padded) == PadIV(iv)
      decreases 32 - |padded|
    {
      padded := "0" + padded;
    }
  }

  // ---- Handing the key out ----

  /** ServeKey: the raw key of the first row with that key id. */
  function ServedBytes(keys: seq<DrmKey>, keyId: string): Option<seq<Byte>> {
    if keys == [] then None
    else if keys[0].keyId == keyId then HexDecode(keys[0].contentKey)
    else ServedBytes(keys[1..], keyId)
  }

  /** What the worker writes to its key file. */
  function WorkerBytes(p: DrmParams): Option<seq<Byte>> {
    HexDecode(p.contentKey)
  }

  // ---- Key rows ----

  predicate HasKey(keys: seq<DrmKey>, video: string) {
    exists k :: k in keys && k.video == video
  }

  lemma IndexFindsKey(keys: seq<DrmKey>, video: string)
    ensures KeyIndex(keys, video) < |keys| <==> HasKey(keys, video)
  {}

  lemma {:induction false} DropKeysRows(keys: seq<DrmKey>, video: string)
    ensures forall k :: k in DropKeys(keys, video) <==> k in keys && k.video != video
  {
    if keys != [] {
      DropKeysRows(keys[1..], video);
    }
  }

  predicate DistinctKeys(keys: seq<DrmKey>) {
    forall i, j :: 0 <= i < j < |keys| ==> keys[i].video != keys[j].video && keys[i].keyId != keys[j].keyId
  }

  lemma {:induction false} DropKeysDistinct(keys: seq<DrmKey>, video: string)
    requires DistinctKeys(keys)
    ensures DistinctKeys(DropKeys(keys, video))
  {
    if keys != [] {
      var rest := DropKeys(keys[1..], video);
      DropKeysDistinct(keys[1..], video);
      DropKeysRows(keys[1..], video);
      forall i | 0 <= i < |rest| ensures rest[i].video != keys[0].video && rest[i].keyId != keys[0].keyId {
        assert rest[i] in keys[1..];
      }
    }
  }

  lemma {:induction false} ServedIsTheRow(keys: seq<DrmKey>, k: DrmKey)
    requires DistinctKeys(keys) && k in keys
    ensures ServedBytes(keys, k.keyId) == HexDecode(k.contentKey)
  {
    if keys[0] != k {
      assert k in keys[1..];
      ServedIsTheRow(keys[1..], k);
    }
  }

  lemma {:induction false} NothingServed(keys: seq<DrmKey>, keyId: string)
    requires forall k :: k in keys ==> k.keyId != keyId
    ensures ServedBytes(keys, keyId) == None
  {
    if keys != [] {
      NothingServed(keys[1..], keyId);
    }
  }
}
