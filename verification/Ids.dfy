/** UUIDs, their text, and the Redis channel names made from them. */
module Ids {

  datatype Option<+T> = None | Some(value: T)

  const UUID_LIMIT: nat := 0x1_0000_0000_0000_0000_0000_0000_0000_0000

  /** A UUID is a 128-bit number. */
  type Uuid = n: nat | n < UUID_LIMIT

  function HexDigit(d: nat): char
    requires d < 16
  {
    (if d < 10 then '0' as int + d else 'a' as int + d - 10) as char
  }

  function DigitValue(c: char): Option<nat> {
    if '0' <= c <= '9' then Some(c as int - '0' as int)
    else if 'a' <= c <= 'f' then Some(c as int - 'a' as int + 10)
    else if 'A' <= c <= 'F' then Some(c as int - 'A' as int + 10)
    else None
  }

  /** The lowest `k` hexadecimal digits of `n`, most significant first. */
  function Hex(n: nat, k: nat): (s: string)
    ensures |s| == k
  {
    if k == 0 then "" else Hex(n / 16, k - 1) + [HexDigit(n % 16)]
  }

  function ParseHex(s: string): Option<nat> {
    if s == "" then Some(0)
    else
      match (ParseHex(s[..|s| - 1]), DigitValue(s[|s| - 1]))
      case (Some(high), Some(d)) => Some(16 * high + d)
      case _ => None
  }

  function Pow16(k: nat): nat {
    if k == 0 then 1 else 16 * Pow16(k - 1)
  }

  lemma {:induction false} Pow16Add(a: nat, b: nat)
    ensures Pow16(a + b) == Pow16(a) * Pow16(b)
  {
    if a > 0 {
      Pow16Add(a - 1, b);
    }
  }

  lemma {:induction false} HexRoundTrip(n: nat, k: nat)
    requires n < Pow16(k)
    ensures ParseHex(Hex(n, k)) == Some(n)
  {
    if k > 0 {
      HexRoundTrip(n / 16, k - 1);
      assert Hex(n, k)[..k - 1] == Hex(n / 16, k - 1);
    }
  }

  /** `str(uuid)`: 32 hexadecimal digits in groups of 8, 4, 4, 4 and 12. */
  function UuidText(u: Uuid): string {
    Hyphenated(Hex(u, 32))
  }

  /** The hyphenated form, in either letter case. */
  function ParseUuid(s: string): Option<Uuid> {
    if |s| == 36 && s[8] == '-' && s[13] == '-' && s[18] == '-' && s[23] == '-' then
      match ParseHex(s[..8] + s[9..13] + s[14..18] + s[19..23] + s[24..])
      case Some(n) => if n < UUID_LIMIT then Some(n) else None
      case None => None
    else None
  }

  lemma Pow16Uuid()
    ensures Pow16(32) == UUID_LIMIT
  {
    assert Pow16(4) == 0x1_0000;
    Pow16Add(4, 4);
    Pow16Add(8, 8);
    Pow16Add(16, 16);
  }

  function Hyphenated(h: string): string
    requires |h| == 32
  {
    h[..8] + "-" + h[8..12] + "-" + h[12..16] + "-" + h[16..20] + "-" + h[20..]
  }

  lemma Hyphens(h: string)
    requires |h| == 32
    ensures var s := Hyphenated(h); |s| == 36 && s[8] == '-' && s[13] == '-' && s[18] == '-' && s[23] == '-'
  {
  }

  lemma FirstGroups(h: string)
    requires |h| == 32
    ensures var s := Hyphenated(h); s[..8] == h[..8] && s[9..13] == h[8..12] && s[14..18] == h[12..16]
  {
  }

  lemma LastGroups(h: string)
    requires |h| == 32
    ensures var s := Hyphenated(h); s[19..23] == h[16..20] && s[24..] == h[20..]
  {
  }

  lemma GroupsJoin(h: string)
    requires |h| == 32
    ensures h[..8] + h[8..12] + h[12..16] + h[16..20] + h[20..] == h
  {
  }

  lemma UuidRoundTrip(u: Uuid)
    ensures ParseUuid(UuidText(u)) == Some(u)
  {
    Hyphens(Hex(u, 32));
    FirstGroups(Hex(u, 32));
    LastGroups(Hex(u, 32));
    GroupsJoin(Hex(u, 32));
    Pow16Uuid();
    HexRoundTrip(u, 32);
  }

  const CHANNEL_PREFIX: string := "chat:conversation:"

  function ConversationChannel(conversationId: Uuid): string {
    CHANNEL_PREFIX + UuidText(conversationId)
  }

  /** Two conversations share a channel only when they are the same conversation. */
  lemma ChannelInjective(a: Uuid, b: Uuid)
    ensures ConversationChannel(a) == ConversationChannel(b) <==> a == b
  {
    if ConversationChannel(a) == ConversationChannel(b) {
      assert UuidText(a) == ConversationChannel(a)[|CHANNEL_PREFIX|..];
      assert UuidText(b) == ConversationChannel(b)[|CHANNEL_PREFIX|..];
      UuidRoundTrip(a);
      UuidRoundTrip(b);
    }
  }

  predicate IsHexDigit(c: char) {
    '0' <= c <= '9' || 'a' <= c <= 'f'
  }

  lemma {:induction false} HexIsHex(n: nat, k: nat)
    ensures forall i :: 0 <= i < k ==> IsHexDigit(Hex(n, k)[i])
  {
    if k > 0 {
      HexIsHex(n / 16, k - 1);
    }
  }

  /** The channel of a conversation: the prefix, and the UUID in lower case with its hyphens. */
  lemma ChannelName(c: Uuid)
    ensures var name, text := ConversationChannel(c), UuidText(c);
            && name == "chat:conversation:" + text && |text| == 36
            && (forall i :: 0 <= i < 36 ==>
                  if i == 8 || i == 13 || i == 18 || i == 23 then text[i] == '-' else IsHexDigit(text[i]))
  {
    HexIsHex(c, 32);
    Hyphens(Hex(c, 32));
  }
}
