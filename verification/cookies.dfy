/**
  The cookie cache of util/misc.go: a process-wide map from cookie-file name to
  the cookies parsed from it, filled on a miss and never evicted. Opening and
  parsing the file under the `cookies` directory is an oracle `disk`.
*/
module Cookies {
  import opened Wrappers

  /** One HTTP cookie, as far as the cache is concerned: an opaque value. */
  datatype Cookie = Cookie(name: string, value: string)

  /** What opening and parsing a cookie file gives: an open error, a parse error, or cookies. */
  datatype FileRead = OpenFailed(reason: string) | ParseFailed(reason: string) | Parsed(cookies: seq<Cookie>)

  /** The part of an extractor the cache looks at. */
  datatype ExtractorInfo = ExtractorInfo(codeName: string)

  const OpenFailedPrefix: string := "failed to open cookie file: "
  const ParseFailedPrefix: string := "failed to parse cookie file: "

  type Cache = map<string, seq<Cookie>>

  /** The answer of one lookup and the cache after it. */
  datatype Lookup = Lookup(result: Result<seq<Cookie>, string>, cache: Cache)

  /**
    One call of `ParseCookieFile(fileName)` on cache `cache`, where `read` is
    what the file would give if it were opened.
  */
  function LookupCookies(cache: Cache, fileName: string, read: FileRead): (o: Lookup)
    // entries are never removed or overwritten
    ensures cache.Keys <= o.cache.Keys
    ensures forall k :: k in cache ==> o.cache[k] == cache[k]
    // only the looked-up name can be added
    ensures o.cache.Keys <= cache.Keys + {fileName}
    // a success is what the cache now holds; a failure leaves the cache alone
    ensures o.result.Success? ==> fileName in o.cache && o.cache[fileName] == o.result.value
    ensures o.result.Failure? ==> o.cache == cache && fileName !in cache
    // a hit answers from the cache whatever the file holds
    ensures fileName in cache ==> o.result == Success(cache[fileName])
    // a miss answers from the file: its cookies are stored, an open or parse error is passed on
    ensures fileName !in cache && read.Parsed? ==>
      o.result == Success(read.cookies) && o.cache == cache[fileName := read.cookies]
    ensures fileName !in cache && read.OpenFailed? ==>
      o.result == Failure(OpenFailedPrefix + read.reason) && o.cache == cache
    ensures fileName !in cache && read.ParseFailed? ==>
      o.result == Failure(ParseFailedPrefix + read.reason) && o.cache == cache
  {
    if fileName in cache then Lookup(Success(cache[fileName]), cache)
    else
      match read
      case OpenFailed(e) => Lookup(Failure(OpenFailedPrefix + e), cache)
      case ParseFailed(e) => Lookup(Failure(ParseFailedPrefix + e), cache)
      case Parsed(cookies) => Lookup(Success(cookies), cache[fileName := cookies])
  }

  /** One call: the file name asked for and what that file would give. */
  datatype Call = Call(fileName: string, read: FileRead)

  /** The cache after a sequence of calls, in order. */
  function Replay(cache: Cache, calls: seq<Call>): Cache
    decreases |calls|
  {
    if calls == [] then cache
    else Replay(LookupCookies(cache, calls[0].fileName, calls[0].read).cache, calls[1..])
  }

  /** Over any sequence of calls, an entry once present stays, with the same cookies. */
  lemma {:induction false} ReplayKeepsEntries(cache: Cache, calls: seq<Call>, name: string)
    requires name in cache
    ensures name in Replay(cache, calls) && Replay(cache, calls)[name] == cache[name]
    decreases |calls|
  {
    if calls != [] {
      var next := LookupCookies(cache, calls[0].fileName, calls[0].read).cache;
      ReplayKeepsEntries(next, calls[1..], name);
    }
  }

  /** Over any sequence of calls, the set of cached names only grows. */
  lemma {:induction false} ReplayOnlyGrows(cache: Cache, calls: seq<Call>)
    ensures cache.Keys <= Replay(cache, calls).Keys
  {
    forall name | name in cache
      ensures name in Replay(cache, calls)
    {
      ReplayKeepsEntries(cache, calls, name);
    }
  }

  /**
    After one successful call for `name`, every later call for `name`, after
    any calls in between, returns the same cookies, whatever the file then holds.
  */
  lemma {:induction false} LookupIdempotent(cache: Cache, name: string, read: FileRead,
                                            between: seq<Call>, laterRead: FileRead)
    requires LookupCookies(cache, name, read).result.Success?
    ensures
      var first := LookupCookies(cache, name, read);
      LookupCookies(Replay(first.cache, between), name, laterRead).result == first.result
  {
    var first := LookupCookies(cache, name, read);
    ReplayKeepsEntries(first.cache, between, name);
  }

  /** The name of an extractor's cookie file. */
  function CookieFileName(extractor: ExtractorInfo): string
  {
    extractor.codeName + ".txt"
  }

  /** The process-wide cookie cache. */
  class CookieCache {
    var entries: Cache
    /** The cookie files opened so far, in order (the file accesses of the cache). */
    ghost var openedFiles: seq<string>

    constructor ()
      ensures entries == map[] && openedFiles == []
    {
      entries := map[];
      openedFiles := [];
    }

    /**
      `ParseCookieFile`: answer from the cache on a hit, without touching the
      disk; on a miss read the file and cache its cookies on success.
    */
    method ParseCookieFile(fileName: string, disk: string -> FileRead) returns (r: Result<seq<Cookie>, string>)
      modifies this
      ensures
        var o := LookupCookies(old(entries), fileName, disk(fileName));
        r == o.result && entries == o.cache
      ensures openedFiles == if fileName in old(entries) then old(openedFiles) else old(openedFiles) + [fileName]
    {
      if fileName in entries {
        r := Success(entries[fileName]);
        return;
      }
      openedFiles := openedFiles + [fileName];
      match disk(fileName) {
        case OpenFailed(e) =>
          r := Failure(OpenFailedPrefix + e);
        case ParseFailed(e) =>
          r := Failure(ParseFailedPrefix + e);
        case Parsed(cookies) =>
          entries := entries[fileName := cookies];
          r := Success(cookies);
      }
    }

    /**
      `GetExtractorCookies`: no extractor means no cookies and no lookup;
      otherwise the cookies of `<code name>.txt`, with every error turned into
      no cookies.
    */
    method GetExtractorCookies(extractor: Option<ExtractorInfo>, disk: string -> FileRead)
      returns (cookies: seq<Cookie>)
      modifies this
      ensures extractor.None? ==> cookies == [] && entries == old(entries) && openedFiles == old(openedFiles)
      ensures extractor.Some? ==>
        var name := CookieFileName(extractor.value);
        var o := LookupCookies(old(entries), name, disk(name));
        && entries == o.cache
        && cookies == (if o.result.Success? then o.result.value else [])
        && openedFiles == if name in old(entries) then old(openedFiles) else old(openedFiles) + [name]
    {
      if extractor == None {
        return [];
      }
      var cookieFile := extractor.value.codeName + ".txt";
      var r := ParseCookieFile(cookieFile, disk);
      if r.Failure? {
        return [];
      }
      cookies := r.value;
    }
  }
}
