/**
 * Credential defaulting and lookup.  The same three helpers appear, token for
 * token, in CredentialHelper, RedisFingerprintStorage and
 * GlobalRedisConfiguration; they are modelled once here.
 */
module Credentials {
  import opened Wrappers

  /** A username/password credential as the credentials provider lists it. */
  datatype Credential = Credential(id: string, username: string, password: string)

  /** The username used when no credential, or one with an empty username, is configured. */
  const DefaultUsername: string := "default"

  /** The username to authenticate with. */
  function UsernameFromCredential(credential: Option<Credential>): (username: string)
    ensures username != ""
    ensures credential.Some? && credential.value.username != "" ==> username == credential.value.username
    ensures credential.None? || credential.value.username == "" ==> username == DefaultUsername
  {
    if credential.None? then DefaultUsername
    else if credential.value.username == "" then DefaultUsername
    else credential.value.username
  }

  /** The password to authenticate with: empty when no credential is configured. */
  function PasswordFromCredential(credential: Option<Credential>): (password: string)
    ensures credential.None? ==> password == ""
    ensures credential.Some? ==> password == credential.value.password
  {
    if credential.None? then "" else credential.value.password
  }

  /** The last credential in `credentials` whose id is `id`. */
  function LastMatch(credentials: seq<Credential>, id: string): (credential: Option<Credential>)
    decreases |credentials|
    ensures credential.Some? ==> credential.value.id == id && credential.value in credentials
  {
    if credentials == [] then None
    else if credentials[|credentials| - 1].id == id then Some(credentials[|credentials| - 1])
    else LastMatch(credentials[..|credentials| - 1], id)
  }

  /** LastMatch finds nothing exactly when no id matches, and otherwise a match that no later one follows. */
  lemma {:induction false} LastMatchIsLast(credentials: seq<Credential>, id: string)
    ensures LastMatch(credentials, id).None? <==> forall i :: 0 <= i < |credentials| ==> credentials[i].id != id
    ensures LastMatch(credentials, id).Some? ==>
      exists i :: 0 <= i < |credentials| && credentials[i] == LastMatch(credentials, id).value
        && credentials[i].id == id
        && forall j :: i < j < |credentials| ==> credentials[j].id != id
    decreases |credentials|
  {
    if credentials != [] {
      var n := |credentials| - 1;
      var init := credentials[..n];
      if credentials[n].id == id {
        assert credentials[n] == LastMatch(credentials, id).value;
      } else {
        LastMatchIsLast(init, id);
        assert forall i :: 0 <= i < n ==> init[i] == credentials[i];
        if LastMatch(init, id).Some? {
          var i :| 0 <= i < n && init[i] == LastMatch(init, id).value && init[i].id == id
            && forall j :: i < j < n ==> init[j].id != id;
          assert credentials[i] == LastMatch(credentials, id).value;
        }
      }
    }
  }

  /** getCredential: scans the provider's list and keeps the last credential with the wanted id. */
  method GetCredential(credentials: seq<Credential>, id: string) returns (credential: Option<Credential>)
    ensures credential == LastMatch(credentials, id)
  {
    credential := None;
    for i := 0 to |credentials|
      invariant credential == LastMatch(credentials[..i], id)
    {
      assert credentials[..i + 1][..i] == credentials[..i];
      if credentials[i].id == id {
        credential := Some(credentials[i]);
      }
    }
    assert credentials[..|credentials|] == credentials;
  }
}
