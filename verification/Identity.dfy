/** Who is asking, and which tenant ids exist (`src/control/secrets.ts`). */
module Identity {

  type TenantId = string

  datatype Caller = ControlPlane | Fleet(tenantId: TenantId)

  /** `[a-z0-9][a-z0-9-]{0,62}`, the whole string. */
  predicate IsValidTenantId(id: TenantId) {
    && 1 <= |id| <= 63
    && id[0] != '-'
    && forall i :: 0 <= i < |id| ==> 'a' <= id[i] <= 'z' || '0' <= id[i] <= '9' || id[i] == '-'
  }

  /** A small letter or a digit, by its code. */
  predicate IsAlphanumeric(c: char) {
    97 <= c as int <= 122 || 48 <= c as int <= 57
  }

  predicate IsTail(tail: string) {
    |tail| <= 62 && forall i :: 0 <= i < |tail| ==> IsAlphanumeric(tail[i]) || tail[i] as int == 45
  }

  /** An id is one letter or digit, and up to 62 more of those or hyphens. */
  lemma TenantIdsAreThose(id: TenantId)
    ensures IsValidTenantId(id) <==>
      exists first: char, tail: string :: id == [first] + tail && IsAlphanumeric(first) && IsTail(tail)
  {
    if IsValidTenantId(id) {
      assert id == [id[0]] + id[1..] && IsAlphanumeric(id[0]) && IsTail(id[1..]);
    }
    if first: char, tail: string :| id == [first] + tail && IsAlphanumeric(first) && IsTail(tail) {
      assert forall i :: 1 <= i < |id| ==> id[i] == tail[i - 1];
    }
  }
}
