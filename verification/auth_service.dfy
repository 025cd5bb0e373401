/** The admin credential store: the same read/save/reset pattern as the
    player record, plus exact-equality credential checks. */
module AuthService {
  import opened Wrappers
  import opened Records
  import opened LocalStore
  import DataService

  const DefaultAuth: AuthData := AuthData("carlospiquet", "P@iquet415263", "5521977434614")

  /** The credential record held under `AuthKey`, when what is there parses as one. */
  function StoredAuth(s: Store): Option<AuthData> {
    if AuthKey in s && s[AuthKey].Credentials? then Some(s[AuthKey].auth) else None
  }

  /** `getAuthData`: the stored credentials, or `DefaultAuth` when the key is
      absent or its text cannot be used. */
  function GetAuthData(s: Store): (r: AuthData)
    ensures AuthKey !in s ==> r == DefaultAuth
    ensures AuthKey in s && !s[AuthKey].Credentials? ==> r == DefaultAuth
    ensures AuthKey in s && s[AuthKey].Credentials? ==> r == s[AuthKey].auth
  {
    StoredAuth(s).GetOr(DefaultAuth)
  }

  /** `saveAuthData`: stores the credentials and reports success; the player
      record is untouched. */
  function SaveAuthData(s: Store, a: AuthData, writable: bool): (w: Written)
    ensures w.ok <==> writable
    ensures w.ok ==> GetAuthData(w.store) == a
    ensures !w.ok ==> w.store == s
    ensures Unchanged(s, w.store, AuthKey)
    ensures DataService.GetData(w.store) == DataService.GetData(s)
  {
    Put(s, AuthKey, Credentials(a), writable)
  }

  /** `resetAuthData`: stores `DefaultAuth` and reports success; the player
      record is untouched. */
  function ResetAuthData(s: Store, writable: bool): (w: Written)
    ensures w.ok <==> writable
    ensures w.ok ==> GetAuthData(w.store) == DefaultAuth
    ensures !w.ok ==> w.store == s
    ensures Unchanged(s, w.store, AuthKey)
    ensures DataService.GetData(w.store) == DataService.GetData(s)
  {
    Put(s, AuthKey, Credentials(DefaultAuth), writable)
  }

  /** `validateCredentials`: both strings must equal the stored ones exactly
      (case-sensitive, no trimming). */
  function ValidateCredentials(s: Store, username: string, password: string): (r: bool)
  {
    var a := GetAuthData(s);
    username == a.username && password == a.password
  }

  /** `getWhatsAppNumber`: the stored number verbatim, even when it is empty. */
  function GetWhatsAppNumber(s: Store): string {
    GetAuthData(s).whatsappNumber
  }

  /** With nothing usable stored, exactly the default pair is accepted. */
  lemma ValidateDefaults(s: Store, username: string, password: string)
    requires StoredAuth(s).None?
    ensures ValidateCredentials(s, username, password)
            <==> username == DefaultAuth.username && password == DefaultAuth.password
  {
  }

  /** After a successful save of `a`, a login attempt is accepted exactly when
      it repeats `a`'s username and password character for character. */
  lemma ValidateAfterSave(s: Store, a: AuthData, username: string, password: string)
    ensures var w := SaveAuthData(s, a, true);
            ValidateCredentials(w.store, username, password)
            <==> username == a.username && password == a.password
  {
  }

  /** Once credentials different from the defaults are saved, the default
      pair is refused. */
  lemma DefaultRefusedAfterChange(s: Store, a: AuthData)
    requires a.username != DefaultAuth.username || a.password != DefaultAuth.password
    ensures !ValidateCredentials(SaveAuthData(s, a, true).store, DefaultAuth.username, DefaultAuth.password)
  {
  }

  /** A saved empty WhatsApp number is returned as the empty string. */
  lemma WhatsAppNumberVerbatim(s: Store, a: AuthData)
    ensures GetWhatsAppNumber(SaveAuthData(s, a, true).store) == a.whatsappNumber
  {
  }
}
