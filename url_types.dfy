/** `URL` of the system assistant (`str` subclass checked in `__new__`). */
module CoreTypes {
  import opened Errors
  import opened Strings

  /** `URL(url)`: accepted exactly when it starts with `http://` or
      `https://` (case-sensitive), and then it is the same string;
      anything else raises ValueError. */
  function NewUrl(url: string): (r: Result<string>)
    ensures r.Success? <==> StartsWith(url, "http://") || StartsWith(url, "https://")
    ensures r.Success? ==> r.value == url
    ensures r.Failure? ==> r.error == ValueError
  {
    if !(StartsWith(url, "http://") || StartsWith(url, "https://")) then Failure(ValueError)
    else Success(url)
  }

  /** Only a prefix is checked: the bare scheme passes, other letter cases do not. */
  lemma NewUrlExamples()
    ensures NewUrl("http://") == Success("http://")
    ensures NewUrl("https://example.org") == Success("https://example.org")
    ensures NewUrl("HTTP://x") == Failure(ValueError)
    ensures NewUrl("ftp://example.org") == Failure(ValueError)
  {
    assert !StartsWith("HTTP://x", "http://") by {
      assert "HTTP://x"[..7][0] == 'H';
    }
    assert !StartsWith("HTTP://x", "https://") by {
      assert "HTTP://x"[..8][0] == 'H';
    }
    assert !StartsWith("ftp://example.org", "http://") by {
      assert "ftp://example.org"[..7][0] == 'f';
    }
    assert !StartsWith("ftp://example.org", "https://") by {
      assert "ftp://example.org"[..8][0] == 'f';
    }
  }
}

/** `URL` of the older voice assistant, checked in `__init__`. */
module VoiceCoreTypes {
  import CoreTypes
  import opened Errors
  import opened Strings

  /** The two prefixes disagree at their fifth character (`:` against
      `s`), so no string starts with both. */
  lemma NoStringHasBothPrefixes(s: string)
    ensures !(StartsWith(s, "http://") && StartsWith(s, "https://"))
  {
    if StartsWith(s, "http://") {
      PrefixCharacter(s, "http://", 4);
    }
    if StartsWith(s, "https://") {
      PrefixCharacter(s, "https://", 4);
    }
  }

  /** `URL.__init__(string)`: the guard rejects unless the string starts
      with BOTH prefixes, which no string does, so every construction
      raises ValueError and the `string` attribute (the `Success` value
      here) is never set. */
  function UrlInit(s: string): (r: Result<string>)
    ensures r == Failure(ValueError)
  {
    NoStringHasBothPrefixes(s);
    if !StartsWith(s, "http://") || !StartsWith(s, "https://") then Failure(ValueError)
    else Success(s)
  }

  /** Both well-formed schemes are rejected, where the system assistant's `URL` accepts them. */
  lemma UrlInitRejectsValidUrls()
    ensures UrlInit("http://example.org") == Failure(ValueError)
    ensures UrlInit("https://example.org") == Failure(ValueError)
    ensures CoreTypes.NewUrl("http://example.org").Success?
    ensures CoreTypes.NewUrl("https://example.org").Success?
  {
  }
}
