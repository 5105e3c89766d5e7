/** The key of a lead's advisory lock: `_lock_key` in src/ai_sdr/db/advisory_lock.py, and
    `_stable_lock_key` in the inbox and follow-up jobs. */
module LeadLock {

  /** An id, shown as `str(uuid)` shows it: without a colon. */
  datatype Ids = Ids(show: nat -> string) {
    ghost predicate Valid() {
      && (forall a, b | show(a) == show(b) :: a == b)
      && (forall a :: ':' !in show(a))
    }
  }

  /** SHA-256: bytes out of a text. */
  datatype Digest = Digest(bytes: string -> seq<nat>) {
    ghost predicate Valid() {
      forall t :: |bytes(t)| == 32 && forall i | 0 <= i < 32 :: bytes(t)[i] < 256
    }
  }

  function Text(tenant: string, lead: string): string {
    tenant + ":" + lead
  }

  function BigEndian(bytes: seq<nat>): nat {
    if bytes == [] then 0 else 256 * BigEndian(bytes[..|bytes| - 1]) + bytes[|bytes| - 1]
  }

  const SIGN_BIT := 0x8000_0000_0000_0000

  /** The first eight bytes, with the sign bit of a 64-bit integer masked off. */
  function Key(d: Digest, tenant: string, lead: string): (k: nat)
    requires |d.bytes(Text(tenant, lead))| >= 8
    ensures k < SIGN_BIT
  {
    BigEndian(d.bytes(Text(tenant, lead))[..8]) % SIGN_BIT
  }

  lemma FirstColon(a: string, b: string)
    requires ':' !in a
    ensures (a + ":" + b)[|a|] == ':' && forall i | 0 <= i < |a| :: (a + ":" + b)[i] != ':'
  {
    assert forall i | 0 <= i < |a| :: (a + ":" + b)[i] == a[i];
  }

  lemma BeforeColon(a: string, b: string, x: string, y: string)
    requires ':' !in a && ':' !in x && a + ":" + b == x + ":" + y
    ensures a == x && b == y
  {
    var t := a + ":" + b;
    FirstColon(a, b);
    FirstColon(x, y);
    assert |a| == |x|;
    assert t[..|a|] == a && t[..|x|] == x && t[|a| + 1..] == b && t[|x| + 1..] == y;
  }

  /** What is hashed tells the lead: two actors hash the same text exactly when they name the
      same tenant and lead. */
  lemma SameTextSameLead(ids: Ids, tenant: nat, lead: nat, tenant': nat, lead': nat)
    requires ids.Valid()
    ensures Text(ids.show(tenant), ids.show(lead)) == Text(ids.show(tenant'), ids.show(lead'))
       <==> tenant == tenant' && lead == lead'
  {
    if Text(ids.show(tenant), ids.show(lead)) == Text(ids.show(tenant'), ids.show(lead')) {
      BeforeColon(ids.show(tenant), ids.show(lead), ids.show(tenant'), ids.show(lead'));
    }
  }

  /** So two actors take the same lock exactly when they name the same lead, unless the digest
      has the same key for two leads. */
  lemma OneLockPerLead(ids: Ids, d: Digest, tenant: nat, lead: nat, tenant': nat, lead': nat)
    requires ids.Valid() && d.Valid()
    requires var t, t' := Text(ids.show(tenant), ids.show(lead)), Text(ids.show(tenant'), ids.show(lead'));
             t != t' ==> Key(d, ids.show(tenant), ids.show(lead)) != Key(d, ids.show(tenant'), ids.show(lead'))
    ensures Key(d, ids.show(tenant), ids.show(lead)) == Key(d, ids.show(tenant'), ids.show(lead'))
       <==> tenant == tenant' && lead == lead'
  {
    SameTextSameLead(ids, tenant, lead, tenant', lead');
  }
}
