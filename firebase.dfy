/**
 * The identity-provider helpers: the bearer-token prefix check and slice, the
 * unescaping of the service-account private key read from the environment, and
 * the module-level app handle that is initialised once and then reused. The
 * identity provider's own SDK (app initialisation, token verification) is not
 * modelled: its initialisation is a registry of apps, its verification a parameter.
 */
module Firebase {
  import opened Wrappers
  import opened Strings

  const BearerPrefix: string := "Bearer "

  /**
   * The guard and slice of `verifyIdToken`: an absent (`undefined` or `null`)
   * authorization value, or one not starting with the case-sensitive "Bearer "
   * (trailing space included), throws "Missing token"; otherwise the token is
   * what follows the first seven characters.
   */
  function ExtractBearer(authorization: Option<string>): (r: Result<string, string>)
    ensures r.Success? <==> authorization.Some? && StartsWith(authorization.value, BearerPrefix)
    ensures r.Success? ==> BearerPrefix + r.value == authorization.value
    ensures r.Failure? ==> r.error == "Missing token"
  {
    if authorization.Some? && StartsWith(authorization.value, BearerPrefix) then
      var token := authorization.value[7..];
      assert authorization.value == authorization.value[..7] + token;
      Success(token)
    else
      Failure("Missing token")
  }

  /** "Bearer " alone passes the check and yields the empty token; the lower-case scheme does not pass. */
  lemma BearerEdgeCases()
    ensures ExtractBearer(Some("Bearer ")) == Success("")
    ensures ExtractBearer(Some("bearer abc")).Failure?
    ensures ExtractBearer(Some("Bearer")).Failure?
    ensures ExtractBearer(None) == Failure("Missing token")
  {
    assert "bearer abc"[..7] != BearerPrefix by { assert "bearer abc"[0] == 'b'; }
  }

  /** No backslash is immediately followed by the letter n. */
  predicate EscapeFree(s: string) {
    forall i :: 0 <= i < |s| - 1 ==> !(s[i] == '\\' && s[i + 1] == 'n')
  }

  /**
   * `.replace(/\\n/g, "\n")`: every backslash-n pair, scanned left to right
   * without overlap, becomes a line break. The result holds no such pair, is
   * empty exactly when the input is, and starts with the letter n exactly when
   * the input does.
   */
  function Unescape(s: string): (r: string)
    ensures EscapeFree(r)
    ensures |r| == 0 <==> |s| == 0
    ensures |r| > 0 ==> (r[0] == 'n' <==> s[0] == 'n')
    ensures |r| <= |s|
  {
    if |s| == 0 then s
    else if |s| >= 2 && s[0] == '\\' && s[1] == 'n' then
      var rest := Unescape(s[2..]);
      var r := "\n" + rest;
      assert forall i :: 1 <= i < |r| ==> r[i] == rest[i - 1];
      r
    else
      var rest := Unescape(s[1..]);
      var r := [s[0]] + rest;
      assert forall i :: 1 <= i < |r| ==> r[i] == rest[i - 1];
      assert s[0] == '\\' && |rest| > 0 ==> rest[0] != 'n';
      r
  }

  /** A key with no backslash-n pair comes back unchanged. */
  lemma {:induction false} UnescapeIdentity(s: string)
    requires EscapeFree(s)
    ensures Unescape(s) == s
  {
    if |s| > 0 {
      assert !(|s| >= 2 && s[0] == '\\' && s[1] == 'n');
      assert EscapeFree(s[1..]) by {
        forall i | 0 <= i < |s[1..]| - 1 ensures !(s[1..][i] == '\\' && s[1..][i + 1] == 'n') {
          assert s[1..][i] == s[i + 1] && s[1..][i + 1] == s[i + 2];
        }
      }
      UnescapeIdentity(s[1..]);
      assert s == [s[0]] + s[1..];
    }
  }

  /** How a multi-line key is written into one environment line: each line break becomes backslash-n. */
  function Escape(s: string): (r: string)
    ensures |r| == 0 <==> |s| == 0
    ensures |r| > 0 ==> r[0] == (if s[0] == '\n' then '\\' else s[0])
  {
    if |s| == 0 then s
    else if s[0] == '\n' then "\\n" + Escape(s[1..])
    else [s[0]] + Escape(s[1..])
  }

  /** Unescaping undoes escaping for every key that does not itself contain a backslash-n pair. */
  lemma {:induction false} UnescapeEscape(s: string)
    requires EscapeFree(s)
    ensures Unescape(Escape(s)) == s
  {
    if |s| > 0 {
      var tail := s[1..];
      assert EscapeFree(tail) by {
        forall i | 0 <= i < |tail| - 1 ensures !(tail[i] == '\\' && tail[i + 1] == 'n') {
          assert tail[i] == s[i + 1] && tail[i + 1] == s[i + 2];
        }
      }
      UnescapeEscape(tail);
      var e := Escape(tail);
      if s[0] == '\n' {
        assert Escape(s) == "\\n" + e;
        assert ("\\n" + e)[2..] == e;
      } else {
        assert Escape(s) == [s[0]] + e;
        assert ([s[0]] + e)[1..] == e;
        if s[0] == '\\' && |e| > 0 {
          assert tail[0] != 'n';
        }
      }
      assert s == [s[0]] + tail;
    }
  }

  /** The service-account credential handed to the SDK. */
  datatype Credential = Credential(projectId: Option<string>, clientEmail: Option<string>, privateKey: string)

  /** An SDK app handle, identified by the credential it was created with. */
  datatype App = App(credential: Credential)

  /** The three environment variables read on first use; `None` is an unset variable. */
  datatype FirebaseEnv = FirebaseEnv(projectId: Option<string>, clientEmail: Option<string>, privateKey: Option<string>)

  /** The decoded token returned by the SDK's verification. */
  datatype DecodedToken = DecodedToken(uid: string)

  /** What `undefined.replace(...)` throws when the private-key variable is unset. */
  const UnsetKeyError: string := "Cannot read properties of undefined (reading 'replace')"

  /**
   * The module's state: its lazily set `app` variable, the SDK's registry of
   * initialised apps (`admin.apps`), and a count of environment reads.
   */
  class FirebaseModule {
    var app: Option<App>
    var registry: seq<App>
    var envReads: nat

    constructor (registered: seq<App>)
      ensures app == None && registry == registered && envReads == 0
    {
      app := None;
      registry := registered;
      envReads := 0;
    }

    /**
     * `getFirebaseApp`: the first call reads the environment, unescapes the key
     * and either initialises a new app (empty registry) or adopts the registered
     * one; once `app` is set, later calls return it and touch nothing.
     */
    method GetFirebaseApp(env: FirebaseEnv) returns (r: Result<App, string>)
      modifies this
      ensures old(app).Some? ==> r == Success(old(app).value) && app == old(app)
                                 && registry == old(registry) && envReads == old(envReads)
      ensures old(app).None? ==> envReads == old(envReads) + 1
      ensures old(app).None? && env.privateKey.None? ==>
                r == Failure(UnsetKeyError) && app == None && registry == old(registry)
      ensures old(app).None? && env.privateKey.Some? && |old(registry)| == 0 ==>
                var created := App(Credential(env.projectId, env.clientEmail, Unescape(env.privateKey.value)));
                r == Success(created) && app == Some(created) && registry == [created]
      ensures old(app).None? && env.privateKey.Some? && |old(registry)| > 0 ==>
                r == Success(old(registry)[0]) && app == Some(old(registry)[0]) && registry == old(registry)
      ensures r.Success? ==> app == Some(r.value)
    {
      if app.None? {
        envReads := envReads + 1;
        if env.privateKey.None? {
          return Failure(UnsetKeyError);
        }
        var privateKey := Unescape(env.privateKey.value);
        if |registry| == 0 {
          var created := App(Credential(env.projectId, env.clientEmail, privateKey));
          registry := registry + [created];
          app := Some(created);
        } else {
          app := Some(registry[0]);
        }
      }
      return Success(app.value);
    }

    /**
     * `verifyIdToken`: the prefix check comes first and, when it fails, nothing is
     * initialised; otherwise the app is obtained and the SDK's verdict on the token
     * (the parameter `verify`) is returned.
     */
    method VerifyIdToken(authorization: Option<string>, env: FirebaseEnv,
                         verify: (App, string) -> Result<DecodedToken, string>)
      returns (r: Result<DecodedToken, string>)
      modifies this
      // a bad header throws before anything is initialised
      ensures ExtractBearer(authorization).Failure? ==>
                r == Failure("Missing token") && app == old(app)
                && registry == old(registry) && envReads == old(envReads)
      // an app already set is reused and nothing is read
      ensures ExtractBearer(authorization).Success? && old(app).Some? ==>
                r == verify(old(app).value, ExtractBearer(authorization).value) && app == old(app)
                && registry == old(registry) && envReads == old(envReads)
      // a first call reads the environment once
      ensures ExtractBearer(authorization).Success? && old(app).None? ==> envReads == old(envReads) + 1
      // an unset key throws out of `getFirebaseApp`, and the throw propagates
      ensures ExtractBearer(authorization).Success? && old(app).None? && env.privateKey.None? ==>
                r == Failure(UnsetKeyError) && app == None && registry == old(registry)
      // a first call with an empty registry creates the app; the verdict is the SDK's on it
      ensures ExtractBearer(authorization).Success? && old(app).None? && env.privateKey.Some? && |old(registry)| == 0 ==>
                var created := App(Credential(env.projectId, env.clientEmail, Unescape(env.privateKey.value)));
                app == Some(created) && registry == [created]
                && r == verify(created, ExtractBearer(authorization).value)
      // a first call with a registered app adopts it; the verdict is the SDK's on it
      ensures ExtractBearer(authorization).Success? && old(app).None? && env.privateKey.Some? && |old(registry)| > 0 ==>
                app == Some(old(registry)[0]) && registry == old(registry)
                && r == verify(old(registry)[0], ExtractBearer(authorization).value)
    {
      var token := ExtractBearer(authorization);
      if token.Failure? {
        return Failure(token.error);
      }
      var a := GetFirebaseApp(env);
      if a.Failure? {
        return Failure(a.error);
      }
      r := verify(a.value, token.value);
    }
  }
}
