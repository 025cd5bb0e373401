/** The browser's durable key-value store, abstracted: a map from key to the
    value found there. A key that is not in the map is absent. */
module LocalStore {
  import opened Records

  /** Key of the player aggregate record. */
  const PlayerKey: string := "playerShowcaseData"
  /** Key of the admin credential record. */
  const AuthKey: string := "adminAuthData"

  /** What a key can hold once read back: a well-formed player record, a
      well-formed credential record, or any other text (empty, not JSON, or
      JSON of another shape), which no reader can use. */
  datatype Value = PlayerRecord(data: PlayerData) | Credentials(auth: AuthData) | Unusable(raw: string)

  type Store = map<string, Value>

  /** The outcome of a write: whether it succeeded and the store after it. */
  datatype Written = Written(ok: bool, store: Store)

  /** `localStorage.setItem(k, v)` inside a `try`: when the store refuses the
      write (`writable` false, e.g. its quota is exhausted) nothing changes
      and the failure is reported instead of thrown. */
  function Put(s: Store, k: string, v: Value, writable: bool): (w: Written)
    ensures w.ok == writable
    ensures w.ok ==> k in w.store && w.store[k] == v
    ensures Unchanged(s, w.store, k)
    ensures !w.ok ==> w.store == s
  {
    if writable then Written(true, s[k := v]) else Written(false, s)
  }

  /** Every key other than `k` is as it was. */
  ghost predicate Unchanged(s: Store, s': Store, k: string) {
    forall k' :: k' != k ==> (k' in s <==> k' in s') && (k' in s ==> s[k'] == s'[k'])
  }
}
