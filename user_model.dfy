/**
 * The `User` schema: its stored record, the read-time getter of the
 * `website` field, and the JSON form produced with getters applied.
 */
module UserModel {

  import opened Wrappers
  import JsString

  const HttpPrefix: string := "http://"
  const HttpsPrefix: string := "https://"

  /** The url already names a scheme the getter recognises (case-sensitive). */
  predicate HasScheme(url: string) {
    HttpPrefix <= url || HttpsPrefix <= url
  }

  /**
   * The `website` getter. A falsy value (absent, or the empty string) is
   * handed back as is; a url that does not start with `http://` or
   * `https://` gets `https://` put in front of it.
   */
  function Normalize(url: Option<string>): (r: Option<string>)
    ensures url.None? ==> r == url
    ensures url == Some("") ==> r == url
    ensures url.Some? && url.value != "" && HasScheme(url.value) ==> r == url
    ensures url.Some? && url.value != "" && !HasScheme(url.value) ==> r == Some(HttpsPrefix + url.value)
  {
    match url
    case None => url
    case Some(s) =>
      if s == "" then url
      else
        JsString.IndexOfZeroIffPrefix(s, HttpPrefix);
        JsString.IndexOfZeroIffPrefix(s, HttpsPrefix);
        if JsString.IndexOf(s, HttpPrefix) != 0 && JsString.IndexOf(s, HttpsPrefix) != 0 then
          Some(HttpsPrefix + s)
        else
          url
  }

  /** Every present, non-empty website reads back with a recognised scheme. */
  lemma NormalizeHasScheme(url: Option<string>)
    requires url.Some? && url.value != ""
    ensures Normalize(url).Some? && HasScheme(Normalize(url).value)
  {
  }

  /** Reading a value that was already read changes nothing. */
  lemma NormalizeIdempotent(url: Option<string>)
    ensures Normalize(Normalize(url)) == Normalize(url)
  {
  }

  /** The getter leaves a value untouched exactly when it is falsy or already has a scheme. */
  lemma NormalizeFixedPoint(url: Option<string>)
    ensures Normalize(url) == url <==> (url.None? || url.value == "" || HasScheme(url.value))
  {
  }

  /**
   * The getter only ever adds in front: absence is kept, the stored url is
   * a suffix of what is read, and at most eight characters are added.
   */
  lemma NormalizeSuffix(url: Option<string>)
    ensures Normalize(url).Some? <==> url.Some?
    ensures url.Some? ==>
      var r := Normalize(url).value;
      |url.value| <= |r| <= |url.value| + |HttpsPrefix| &&
      r[|r| - |url.value|..] == url.value
  {
  }

  /** A url without a scheme reads back with `https://` in front. */
  lemma NormalizeBareHost()
    ensures Normalize(Some("example.com")) == Some("https://example.com")
  {
    assert !HasScheme("example.com") by {
      assert "example.com"[0] != HttpPrefix[0];
    }
    var read := HttpsPrefix + "example.com";
    forall i | 0 <= i < 19 ensures read[i] == "https://example.com"[i] { }
    assert read == "https://example.com";
  }

  /** A url with an `http://` scheme reads back unchanged. */
  lemma NormalizeKeepsHttp()
    ensures Normalize(Some("http://example.com")) == Some("http://example.com")
  {
  }

  /** The scheme test is case-sensitive: an upper-case `HTTP://` is not recognised. */
  lemma NormalizeCaseSensitive()
    ensures Normalize(Some("HTTP://x")) == Some("https://HTTP://x")
  {
    assert !HasScheme("HTTP://x") by {
      assert "HTTP://x"[0] != HttpPrefix[0];
    }
    var read := HttpsPrefix + "HTTP://x";
    forall i | 0 <= i < 16 ensures read[i] == "https://HTTP://x"[i] { }
    assert read == "https://HTTP://x";
  }

  /** A point in time, in milliseconds since the epoch (a JavaScript `Date`). */
  type Timestamp = int

  /** A stored user document; every field may be unset. */
  datatype User = User(
    firstName: Option<string>,
    lastName: Option<string>,
    email: Option<string>,
    username: Option<string>,
    password: Option<string>,
    created: Option<Timestamp>,
    website: Option<string>)

  /** The JSON form of a user, with getters applied: only `website` has one. */
  function ToJSON(u: User): (j: User)
    ensures j.firstName == u.firstName && j.lastName == u.lastName
    ensures j.email == u.email && j.username == u.username
    ensures j.password == u.password && j.created == u.created
    ensures j.website == Normalize(u.website)
  {
    u.(website := Normalize(u.website))
  }

  /** Converting an already converted user to JSON again changes nothing. */
  lemma ToJSONIdempotent(u: User)
    ensures ToJSON(ToJSON(u)) == ToJSON(u)
  {
  }

  /**
   * The JSON form equals the stored record exactly when the stored website
   * is falsy or already has a scheme; otherwise they differ in `website` only.
   */
  lemma ToJSONFixedPoint(u: User)
    ensures ToJSON(u) == u <==> (u.website.None? || u.website.value == "" || HasScheme(u.website.value))
  {
  }
}
