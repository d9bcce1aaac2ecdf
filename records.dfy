/** The conversation record of one chat session: an append-only list of text
    blocks, each carrying tags (src/api.py). A tag has a kind and a name; the
    bot tags every user block with its role and with the chat platform's
    message id, rendered by Python's `str`. */
module Records {

  /** Tag kind and role names used by the bot. `TagKind.ROLE`, `RoleTag.USER` and
      `RoleTag.SYSTEM` are constants of the storage SDK, which is not part of this
      model; only their being distinct from "message_id" matters here. */
  const ROLE_KIND: string := "role"
  const ROLE_USER: string := "user"
  const ROLE_SYSTEM: string := "system"
  /** The tag kind the bot uses to remember which chat messages it has stored. */
  const MESSAGE_ID_KIND: string := "message_id"

  datatype Tag = Tag(kind: string, name: string)

  datatype Block = Block(text: string, tags: seq<Tag>)

  /** A Python value passed to `str()`: Discord channel and message ids are
      integers, the web endpoint passes strings (a session name, a uuid). */
  datatype Id = IntId(n: int) | StrId(s: string)

  predicate IsDigit(c: char) {
    '0' <= c <= '9'
  }

  function DigitChar(d: nat): (c: char)
    requires d < 10
    ensures IsDigit(c)
    ensures c as int - '0' as int == d
  {
    ('0' as int + d) as char
  }

  /** Python's `str(n)` for a non-negative integer: decimal digits, most
      significant first, without leading zeros. */
  function NatToString(n: nat): (s: string)
    ensures 1 <= |s|
    ensures forall i :: 0 <= i < |s| ==> IsDigit(s[i])
    ensures n < 10 <==> |s| == 1
    ensures s[|s| - 1] == DigitChar(n % 10)
  {
    if n < 10 then [DigitChar(n)] else NatToString(n / 10) + [DigitChar(n % 10)]
  }

  /** Python's `str(n)` for any integer: a minus sign before the digits of |n|. */
  function IntToString(n: int): (s: string)
    ensures 1 <= |s|
    ensures s[0] == '-' <==> n < 0
  {
    if n < 0 then "-" + NatToString(-n) else NatToString(n)
  }

  /** `str(x)` of an id. */
  function Str(x: Id): string {
    match x
    case IntId(n) => IntToString(n)
    case StrId(s) => s
  }

  /** Two different integers never render to the same decimal text. */
  lemma {:induction false} NatToStringInjective(a: nat, b: nat)
    requires NatToString(a) == NatToString(b)
    ensures a == b
  {
    var sa, sb := NatToString(a), NatToString(b);
    if a >= 10 && b >= 10 {
      assert sa[..|sa| - 1] == NatToString(a / 10);
      assert sb[..|sb| - 1] == NatToString(b / 10);
      NatToStringInjective(a / 10, b / 10);
      assert DigitChar(a % 10) == DigitChar(b % 10);
    } else if a < 10 && b < 10 {
      assert DigitChar(a) == sa[0] == sb[0] == DigitChar(b);
    }
  }

  lemma IntToStringInjective(a: int, b: int)
    requires IntToString(a) == IntToString(b)
    ensures a == b
  {
    if a < 0 {
      assert IntToString(a)[1..] == NatToString(-a);
      assert IntToString(b)[1..] == NatToString(-b);
      NatToStringInjective(-a, -b);
    } else {
      NatToStringInjective(a, b);
    }
  }

  /** The tag that says a block stores the chat message whose `str` id is `key`. */
  predicate IsMessageTag(t: Tag, key: string) {
    t.kind == MESSAGE_ID_KIND && t.name == key
  }

  predicate BlockHasMessage(b: Block, key: string) {
    exists j :: 0 <= j < |b.tags| && IsMessageTag(b.tags[j], key)
  }

  /** The record already stores the message whose `str` id is `key`: some block has
      a `message_id` tag with that name (src/api.py:152-158). */
  predicate HasMessage(record: seq<Block>, key: string) {
    exists i :: 0 <= i < |record| && BlockHasMessage(record[i], key)
  }

  /** The block that records an incoming user message (src/api.py:134-137). */
  function UserBlock(text: string, messageId: Id): (b: Block)
    ensures b.text == text
    ensures BlockHasMessage(b, Str(messageId))
    ensures forall key :: BlockHasMessage(b, key) <==> key == Str(messageId)
  {
    var b := Block(text, [Tag(ROLE_KIND, ROLE_USER), Tag(MESSAGE_ID_KIND, Str(messageId))]);
    assert IsMessageTag(b.tags[1], Str(messageId));
    b
  }

  /** The persona prompt a new chat record begins with (src/api.py:176). */
  function SystemPrompt(botName: string, botPersonality: string): string {
    "Your name is " + botName + ". Your personality is " + botPersonality + "."
  }

  /** The contents of a newly created chat record (src/api.py:169-180). */
  function SeedRecord(botName: string, botPersonality: string): (r: seq<Block>)
    ensures |r| == 1
    ensures r[0].text == SystemPrompt(botName, botPersonality)
    ensures r[0].tags == [Tag(ROLE_KIND, ROLE_SYSTEM)]
    ensures forall key :: !HasMessage(r, key)
  {
    [Block(SystemPrompt(botName, botPersonality), [Tag(ROLE_KIND, ROLE_SYSTEM)])]
  }

  /** Appending the block of message `m` makes `m` known, and no other id:
      a record with `m`'s block appended stores exactly the ids it stored before,
      plus `str(m)`. */
  lemma AppendUserBlockRecords(record: seq<Block>, text: string, m: Id, key: string)
    ensures HasMessage(record + [UserBlock(text, m)], key)
        <==> HasMessage(record, key) || key == Str(m)
  {
    var r := record + [UserBlock(text, m)];
    if HasMessage(record, key) {
      var i :| 0 <= i < |record| && BlockHasMessage(record[i], key);
      assert r[i] == record[i];
    }
    if key == Str(m) {
      assert r[|record|] == UserBlock(text, m);
    }
    if HasMessage(r, key) {
      var i :| 0 <= i < |r| && BlockHasMessage(r[i], key);
      if i < |record| {
        assert r[i] == record[i];
      }
    }
  }

  /** Discord ids are integers: two different message ids never collide as tags. */
  lemma DistinctIntIdsDistinctKeys(a: int, b: int)
    requires a != b
    ensures Str(IntId(a)) != Str(IntId(b))
  {
    if Str(IntId(a)) == Str(IntId(b)) {
      IntToStringInjective(a, b);
    }
  }
}
