/** The DynamoDB item of one runtime session, and the conditional updates made on it.

    An absent attribute is `None`; an absent item is `NOTHING`, which no condition
    can tell from an item without attributes. `lease_owner` and `lease_until` are
    always written and removed together, hence one optional `Holder`. */
module SessionItem {
  import opened Prelude

  const LEASE_SECONDS := 120
  const LEASE_WAIT_SECONDS := 90
  const DEFAULT_TTL_SECONDS := 24 * 3600

  type Rid = string
  type Sid = string

  /** `sess_` and twelve hexadecimal digits. */
  predicate ValidSid(sid: Sid) {
    && |sid| == 17 && sid[..5] == "sess_"
    && forall i :: 5 <= i < 17 ==> '0' <= sid[i] <= '9' || 'a' <= sid[i] <= 'f'
  }

  lemma ValidSidMeans(digits: string)
    ensures ValidSid("sess_" + digits) <==>
      |digits| == 12 && forall i :: 0 <= i < 12 ==> digits[i] in "0123456789abcdef"
  {
    var sid := "sess_" + digits;
    assert sid[..5] == "sess_" && forall i :: 0 <= i < |digits| ==> sid[i + 5] == digits[i];
    if |digits| == 12 {
      forall i | 0 <= i < 12
        ensures digits[i] in "0123456789abcdef" <==> '0' <= sid[i + 5] <= '9' || 'a' <= sid[i + 5] <= 'f'
      {
        HexDigit(digits[i]);
      }
      assert forall i :: 5 <= i < 17 ==> sid[i] == digits[i - 5];
    }
  }

  lemma HexDigit(c: char)
    ensures c in "0123456789abcdef" <==> '0' <= c <= '9' || 'a' <= c <= 'f'
  {
    var hex := "0123456789abcdef";
    if '0' <= c <= '9' { assert hex[c as int - '0' as int] == c; }
    if 'a' <= c <= 'f' { assert hex[10 + c as int - 'a' as int] == c; }
  }

  /** The random owner id of one lease object. */
  type Owner = nat

  /** A registry record; `rest` stands for the sandbox id, workspace path and hosts. */
  datatype Record = Record(rid: Rid, sessionId: Sid, rest: string, updatedAt: int, expiresAt: int)

  /** What is stored: the record itself, or a KMS envelope bound to an encryption context. */
  datatype Stored = Clear(record: Record) | Sealed(context: Rid, record: Record)

  datatype Holder = Holder(owner: Owner, until: int)

  datatype Item = Item(holder: Option<Holder>, record: Option<Stored>, expiresAt: Option<int>)

  const NOTHING := Item(None, None, None)

  // ---- the sealer and the record checks -------------------------------------

  function Stamp(rid: Rid, r: Record, now: int, ttl: int): Record {
    r.(rid := rid, updatedAt := now, expiresAt := now + ttl)
  }

  function Seal(kms: bool, rid: Rid, r: Record): Stored {
    if kms then Sealed(rid, r) else Clear(r)
  }

  /** Without a key an envelope is read as the plain object it is: only its clear fields. */
  function Open(kms: bool, rid: Rid, s: Stored): Result<Record> {
    match s
    case Clear(r) => if kms then Err("registry record is not sealed; refusing to trust it") else Ok(r)
    case Sealed(context, r) =>
      if !kms then Ok(r.(rest := ""))
      else if context != rid then Err("decryption context mismatch")
      else Ok(r)
  }

  function CheckRecord(rid: Rid, r: Record): Result<Record> {
    if r.rid != rid then Err("registry record belongs to another runtime session") else Ok(r)
  }

  function OpenChecked(kms: bool, rid: Rid, s: Stored): Result<Record> {
    match Open(kms, rid, s)
    case Err(e) => Err(e)
    case Ok(r) => CheckRecord(rid, r)
  }

  /** The record a reader at time `clock` makes of an item it was handed. */
  function Visible(kms: bool, rid: Rid, i: Item, clock: real): Result<Option<Record>> {
    if i.record.None? then Ok(None)
    else if (if i.expiresAt.Some? then i.expiresAt.value else 0) as real < clock then Ok(None)
    else match OpenChecked(kms, rid, i.record.value)
      case Err(e) => Err(e)
      case Ok(r) => Ok(Some(r))
  }

  // ---- conditional updates ---------------------------------------------------

  predicate CanGrant(i: Item, now: int) {
    i.holder.None? || i.holder.value.until < now
  }

  function Grant(i: Item, owner: Owner, now: int): Item {
    i.(holder := Some(Holder(owner, now + LEASE_SECONDS)),
       expiresAt := if i.expiresAt.Some? then i.expiresAt else Some(now + DEFAULT_TTL_SECONDS))
  }

  predicate OwnedBy(i: Item, owner: Owner) {
    i.holder.Some? && i.holder.value.owner == owner
  }

  function Extend(i: Item, until: int): Item
    requires i.holder.Some?
  {
    i.(holder := Some(i.holder.value.(until := until)))
  }

  function Write(i: Item, s: Stored): Item {
    i.(record := Some(s), expiresAt := Some(s.record.expiresAt))
  }

  /** Delete under a lease: the item and its lease stay, the session state goes. */
  function Erase(i: Item): Item {
    i.(record := None)
  }

  function Free(i: Item): Item {
    i.(holder := None)
  }

  /** The test a lease makes before every recorded execution. */
  predicate CheckPasses(lost: bool, expires: int, clock: real) {
    !lost && clock < expires as real - 10.0
  }
}
