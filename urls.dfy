/** A simplified `urllib.parse.urlparse(url).netloc`: the authority part of
    an `http://` or `https://` URL (section 3.2 of RFC 3986), which runs up to
    the first `/`, `?` or `#`. */
module Urls {
  import opened Strings

  predicate IsDelimiter(c: char)
  {
    c == '/' || c == '?' || c == '#'
  }

  /** The longest prefix of `rest` free of path, query and fragment delimiters. */
  function Authority(rest: string): (a: string)
    ensures HasPrefix(rest, a)
    ensures forall i :: 0 <= i < |a| ==> !IsDelimiter(a[i])
    ensures |a| < |rest| ==> IsDelimiter(rest[|a|])
  {
    if rest == [] || IsDelimiter(rest[0]) then [] else [rest[0]] + Authority(rest[1..])
  }

  /** The network location of a URL; empty when the URL has no `http(s)://`
      scheme, as urlparse gives for a bare `www.site.be` or `site`. */
  function Host(url: string): (h: string)
    ensures '/' !in h
    ensures !HasPrefix(url, "https://") && !HasPrefix(url, "http://") ==> h == []
  {
    if HasPrefix(url, "https://") then Authority(url[8..])
    else if HasPrefix(url, "http://") then Authority(url[7..])
    else []
  }

  /** The authority of `host + path` is `host` when `host` holds no delimiter
      and `path` is empty or starts with one. */
  lemma {:induction false} AuthorityOf(host: string, path: string)
    requires forall i :: 0 <= i < |host| ==> !IsDelimiter(host[i])
    requires path == [] || IsDelimiter(path[0])
    ensures Authority(host + path) == host
  {
    if host != [] {
      assert (host + path)[1..] == host[1..] + path;
      AuthorityOf(host[1..], path);
    } else {
      assert host + path == path;
    }
  }

  /** The host of `https://host/path`. */
  lemma HostOfHttps(host: string, path: string)
    requires forall i :: 0 <= i < |host| ==> !IsDelimiter(host[i])
    requires path == [] || IsDelimiter(path[0])
    ensures Host("https://" + host + path) == host
  {
    var url := "https://" + host + path;
    assert url[..8] == "https://";
    assert url[8..] == host + path;
    AuthorityOf(host, path);
  }
}
