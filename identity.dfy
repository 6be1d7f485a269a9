/** Author and committer identities taken from the build environment
    (GitAPI.java: buildPersonIdent and parseEnvVars). */
module Identity {
  import opened Results
  import opened Text

  /** JGit's PersonIdent, as far as the layer fills it in. */
  datatype PersonIdent = PersonIdent(name: string, email: string)

  /** The environment variable names of GitConstants (GitConstants.java is not
      part of this model; these are the names git itself reads). */
  const AuthorNameVar := "GIT_AUTHOR_NAME"
  const AuthorEmailVar := "GIT_AUTHOR_EMAIL"
  const CommitterNameVar := "GIT_COMMITTER_NAME"
  const CommitterEmailVar := "GIT_COMMITTER_EMAIL"

  /** `envVars.get(key)`: `null` for a variable that is not set. */
  function Lookup(env: map<string, string>, key: string): (v: Option<string>)
    ensures v.Some? <==> key in env
    ensures v.Some? ==> v.value == env[key]
  {
    if key in env then Some(env[key]) else None
  }

  /** buildPersonIdent(envVars, nameKey, emailKey): an identity only when the
      environment is there and both variables are set to something other
      than blanks; `null` otherwise. */
  function BuildPersonIdent(env: Option<map<string, string>>, nameKey: string, emailKey: string): (r: Option<PersonIdent>)
    ensures r.Some? <==> env.Some? && !IsBlank(Lookup(env.value, nameKey)) && !IsBlank(Lookup(env.value, emailKey))
    ensures r.Some? ==> r.value == PersonIdent(env.value[nameKey], env.value[emailKey])
  {
    match env
    case None => None
    case Some(vars) =>
      var name := Lookup(vars, nameKey);
      var email := Lookup(vars, emailKey);
      if !IsBlank(name) && !IsBlank(email) then Some(PersonIdent(name.value, email.value)) else None
  }

  /** A value made only of whitespace counts as missing, whatever the other one is. */
  lemma BlankValueGivesNoIdent(env: map<string, string>, nameKey: string, emailKey: string, blank: string)
    requires forall i :: 0 <= i < |blank| ==> IsJavaWhitespace(blank[i])
    ensures BuildPersonIdent(Some(env[nameKey := blank]), nameKey, emailKey).None?
    ensures BuildPersonIdent(Some(env[emailKey := blank]), nameKey, emailKey).None?
  {
    assert Lookup(env[nameKey := blank], nameKey) == Some(blank);
    assert Lookup(env[emailKey := blank], emailKey) == Some(blank);
  }

  /** The author and the committer that parseEnvVars stores. */
  datatype Identities = Identities(author: Option<PersonIdent>, committer: Option<PersonIdent>)

  /** parseEnvVars(envVars): both fields are recomputed, so an identity that
      is not in the environment any more is cleared. */
  function IdentitiesFrom(env: Option<map<string, string>>): (ids: Identities)
    ensures ids.author == BuildPersonIdent(env, AuthorNameVar, AuthorEmailVar)
    ensures ids.committer == BuildPersonIdent(env, CommitterNameVar, CommitterEmailVar)
  {
    Identities(BuildPersonIdent(env, AuthorNameVar, AuthorEmailVar),
               BuildPersonIdent(env, CommitterNameVar, CommitterEmailVar))
  }

  /** The author depends on the author variables only, and the committer on
      the committer variables only. */
  lemma IdentitiesAreIndependent(env: map<string, string>, key: string, value: string)
    ensures key != AuthorNameVar && key != AuthorEmailVar ==>
              IdentitiesFrom(Some(env[key := value])).author == IdentitiesFrom(Some(env)).author
    ensures key != CommitterNameVar && key != CommitterEmailVar ==>
              IdentitiesFrom(Some(env[key := value])).committer == IdentitiesFrom(Some(env)).committer
  {
    var env' := env[key := value];
    assert key != AuthorNameVar ==> Lookup(env', AuthorNameVar) == Lookup(env, AuthorNameVar);
    assert key != AuthorEmailVar ==> Lookup(env', AuthorEmailVar) == Lookup(env, AuthorEmailVar);
    assert key != CommitterNameVar ==> Lookup(env', CommitterNameVar) == Lookup(env, CommitterNameVar);
    assert key != CommitterEmailVar ==> Lookup(env', CommitterEmailVar) == Lookup(env, CommitterEmailVar);
  }
}
