/**
 * The access list of the question API: the e-mail addresses allowed to ask,
 * read from a CSV object in S3 whose URL is a secret, and cached for five
 * minutes. A failed load keeps whatever was cached before and leaves the
 * cache stale, so the next check tries again.
 */
module AuthUtils {
  import opened Wrappers
  import opened PyText

  /** The cache's time to live, in seconds. */
  const CacheTtl := 300

  /** The first label of an S3 virtual-host name: the bucket. */
  function BucketOfHost(netloc: string): (r: string)
    ensures |r| <= |netloc| && r == netloc[..|r|] && '.' !in r
    ensures |r| < |netloc| ==> netloc[|r|] == '.'
  {
    match IndexOf(netloc, '.')
    case None => netloc
    case Some(i) => netloc[..i]
  }

  /** The object key: the URL path without its leading slashes. */
  function KeyOfPath(path: string): (r: string)
    ensures r == [] || r[0] != '/'
    ensures |r| <= |path| && path == Repeat('/', |path| - |r|) + r
  {
    var r := LStripChar(path, '/');
    assert path == path[..|path| - |r|] + r;
    assert path[..|path| - |r|] == Repeat('/', |path| - |r|);
    r
  }

  function Repeat(c: char, n: nat): (r: string)
    ensures |r| == n && forall k :: 0 <= k < n ==> r[k] == c
  {
    seq(n, _ => c)
  }

  /** An entry of the list: the first column of a non-empty row, stripped and lower-cased. */
  function Entry(row: seq<string>): string
    requires row != []
  {
    Lower(Strip(row[0]))
  }

  /** `[row[0].strip().lower() for row in reader if row]`. */
  function AccessList(rows: seq<seq<string>>): seq<string>
    decreases |rows|
  {
    if rows == [] then []
    else
      var last := rows[|rows| - 1];
      AccessList(rows[..|rows| - 1]) + (if last != [] then [Entry(last)] else [])
  }

  /** The list holds exactly the entries of the non-empty rows. */
  lemma AccessListMembers(rows: seq<seq<string>>, e: string)
    ensures e in AccessList(rows) <==> exists k :: 0 <= k < |rows| && rows[k] != [] && Entry(rows[k]) == e
  {
    if e in AccessList(rows) {
      ListedHasRow(rows, e);
    }
    if exists k :: 0 <= k < |rows| && rows[k] != [] && Entry(rows[k]) == e {
      var k :| 0 <= k < |rows| && rows[k] != [] && Entry(rows[k]) == e;
      RowIsListed(rows, k);
    }
  }

  lemma {:induction false} ListedHasRow(rows: seq<seq<string>>, e: string)
    requires e in AccessList(rows)
    ensures exists k :: 0 <= k < |rows| && rows[k] != [] && Entry(rows[k]) == e
    decreases |rows|
  {
    var prefix := rows[..|rows| - 1];
    var last := rows[|rows| - 1];
    assert AccessList(rows) == AccessList(prefix) + (if last != [] then [Entry(last)] else []);
    if e in AccessList(prefix) {
      ListedHasRow(prefix, e);
      var k :| 0 <= k < |prefix| && prefix[k] != [] && Entry(prefix[k]) == e;
      assert rows[k] == prefix[k];
    } else {
      assert last != [] && Entry(last) == e;
    }
  }

  lemma {:induction false} RowIsListed(rows: seq<seq<string>>, k: nat)
    requires k < |rows| && rows[k] != []
    ensures Entry(rows[k]) in AccessList(rows)
    decreases |rows|
  {
    var prefix := rows[..|rows| - 1];
    var last := rows[|rows| - 1];
    var listed := AccessList(prefix);
    var tail := if last != [] then [Entry(last)] else [];
    assert AccessList(rows) == listed + tail;
    var e := Entry(rows[k]);
    if k < |prefix| {
      assert prefix[k] == rows[k];
      RowIsListed(prefix, k);
      assert e in listed;
    } else {
      assert tail == [e];
    }
    assert e in listed + tail;
  }

  /** No entry starts or ends with whitespace. */
  lemma EntriesTrimmed(rows: seq<seq<string>>)
    ensures forall e :: e in AccessList(rows) ==> e == [] || (!IsSpace(e[0]) && !IsSpace(e[|e| - 1]))
  {
    forall e | e in AccessList(rows) ensures e == [] || (!IsSpace(e[0]) && !IsSpace(e[|e| - 1])) {
      ListedHasRow(rows, e);
      var k :| 0 <= k < |rows| && rows[k] != [] && Entry(rows[k]) == e;
      EntryTrimmed(rows[k]);
    }
  }

  lemma EntryTrimmed(row: seq<string>)
    requires row != []
    ensures var e := Entry(row); e == [] || (!IsSpace(e[0]) && !IsSpace(e[|e| - 1]))
  {
    var stripped := Strip(row[0]);
    var e := Lower(stripped);
    if e != [] {
      LowerKeepsSpace(stripped);
      assert IsSpace(e[0]) <==> IsSpace(stripped[0]);
      assert IsSpace(e[|e| - 1]) <==> IsSpace(stripped[|stripped| - 1]);
    }
  }

  lemma LowerKeepsSpace(s: string)
    ensures forall k :: 0 <= k < |s| ==> (IsSpace(Lower(s)[k]) <==> IsSpace(s[k]))
  {
  }

  /** A queried address with surrounding whitespace is never on the list: the query is lower-cased but not stripped. */
  lemma PaddedAddressRejected(rows: seq<seq<string>>, email: string)
    requires email != [] && (IsSpace(email[0]) || IsSpace(email[|email| - 1]))
    ensures Lower(email) !in AccessList(rows)
  {
    EntriesTrimmed(rows);
    LowerKeepsSpace(email);
  }

  /** What the S3 read gives back: the CSV rows of the object, or the failure. */
  type Fetch = (string, string) -> Result<seq<seq<string>>, string>

  class AuthUtil {
    var authorizedEmails: seq<string>
    /** The time of the last successful load, in seconds; None before the first. */
    var lastRefresh: Option<int>

    /** _is_cache_stale at time `now`. */
    predicate IsStale(now: int)
      reads this
    {
      lastRefresh.None? || now - lastRefresh.value > CacheTtl
    }

    /**
     * The state after a load at time `now`: `url` is the access-list URL the
     * secrets give, `parse` splits it into host and path, `fetch` reads the
     * object. Without a URL, or when the read fails, nothing changes.
     */
    function Loaded(url: Option<string>, parse: string -> (string, string), fetch: Fetch, now: int): (seq<string>, Option<int>)
      reads this
    {
      if url.None? || url.value == "" then (authorizedEmails, lastRefresh)
      else
        var (netloc, path) := parse(url.value);
        match fetch(BucketOfHost(netloc), KeyOfPath(path))
        case Err(_) => (authorizedEmails, lastRefresh)
        case Ok(rows) => (AccessList(rows), Some(now))
    }

    /** The constructor starts empty and loads once. */
    constructor(url: Option<string>, parse: string -> (string, string), fetch: Fetch, now: int)
      ensures (authorizedEmails, lastRefresh) ==
        (if url.None? || url.value == "" then ([], None)
         else match fetch(BucketOfHost(parse(url.value).0), KeyOfPath(parse(url.value).1))
              case Err(_) => ([], None)
              case Ok(rows) => (AccessList(rows), Some(now)))
    {
      authorizedEmails := [];
      lastRefresh := None;
      new;
      LoadAccessList(url, parse, fetch, now);
    }

    /** _load_access_list. */
    method LoadAccessList(url: Option<string>, parse: string -> (string, string), fetch: Fetch, now: int)
      modifies this
      ensures (authorizedEmails, lastRefresh) == old(Loaded(url, parse, fetch, now))
    {
      if url.None? || url.value == "" {
        return;
      }
      var (netloc, path) := parse(url.value);
      var answer := fetch(BucketOfHost(netloc), KeyOfPath(path));
      if answer.Err? {
        return;
      }
      authorizedEmails := AccessList(answer.value);
      lastRefresh := Some(now);
    }

    /** is_authorized: reload when stale, then look the lower-cased address up. */
    method IsAuthorized(email: string, url: Option<string>, parse: string -> (string, string), fetch: Fetch, now: int)
      returns (authorized: bool)
      modifies this
      ensures (authorizedEmails, lastRefresh) ==
        if old(IsStale(now)) then old(Loaded(url, parse, fetch, now)) else old((authorizedEmails, lastRefresh))
      ensures authorized <==> Lower(email) in authorizedEmails
    {
      if IsStale(now) {
        LoadAccessList(url, parse, fetch, now);
      }
      authorized := Lower(email) in authorizedEmails;
    }

    /** refresh_access_list: an unconditional reload. */
    method RefreshAccessList(url: Option<string>, parse: string -> (string, string), fetch: Fetch, now: int)
      modifies this
      ensures (authorizedEmails, lastRefresh) == old(Loaded(url, parse, fetch, now))
    {
      LoadAccessList(url, parse, fetch, now);
    }
  }

  /** After a load at `loadedAt` the cache is fresh up to and including 300 seconds later, and stale after. */
  lemma StaleWindow(u: AuthUtil, loadedAt: int, now: int)
    requires u.lastRefresh == Some(loadedAt)
    ensures u.IsStale(now) <==> now > loadedAt + CacheTtl
  {
  }

  /** A successful load makes the cache fresh at that moment, and the list is the parsed rows. */
  lemma LoadRefreshes(u: AuthUtil, url: string, parse: string -> (string, string), fetch: Fetch, now: int)
    requires url != ""
    requires fetch(BucketOfHost(parse(url).0), KeyOfPath(parse(url).1)).Ok?
    ensures u.Loaded(Some(url), parse, fetch, now) ==
      (AccessList(fetch(BucketOfHost(parse(url).0), KeyOfPath(parse(url).1)).value), Some(now))
  {
  }
}
