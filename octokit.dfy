/** `OctokitApiService`: the releases of the GitHub repository a URL names,
    cached under the URL, and the album of the latest release's assets that
    the RSS module posts. GitHub's answer is `fetch`; the downloads of the
    assets are not part of this model. */
module Octokit {
  import opened Wrappers
  import opened Text
  import opened TelegramTypes

  datatype Asset = Asset(name: string, size: int, browserDownloadUrl: string)

  datatype Release = Release(tagName: string, assets: seq<Asset>)

  /** A repository's owner and name, either of which may be null. */
  type Repo = (Option<string>, Option<string>)

  /** The owner and the name of the repository: the parts 3 and 4 of the URL
      split at every `/` (`ElementAtOrDefault`, so a missing part is null). */
  function RepoOf(url: string): (r: Repo)
    ensures r.0.Some? <==> |Split(url, '/')| > 3
    ensures r.1.Some? <==> |Split(url, '/')| > 4
    ensures r.1.Some? ==> r.0.Some?
  {
    var parts := Split(url, '/');
    (if |parts| > 3 then Some(parts[3]) else None, if |parts| > 4 then Some(parts[4]) else None)
  }

  /** For a repository URL `scheme//host/owner/repo...` those are the owner
      and the repository. */
  lemma {:induction false} RepoOfRepositoryUrl(scheme: string, host: string, owner: string, repo: string, tail: string)
    requires '/' !in scheme && '/' !in host && '/' !in owner && '/' !in repo
    requires tail == "" || tail[0] == '/'
    ensures RepoOf(scheme + "//" + host + "/" + owner + "/" + repo + tail) == (Some(owner), Some(repo))
  {
    var rest := repo + tail;
    var p3 := owner + ['/'] + rest;
    var p2 := host + ['/'] + p3;
    var p1 := [] + ['/'] + p2;
    var url := scheme + ['/'] + p1;
    assert scheme + "//" + host + "/" + owner + "/" + repo + tail == url;
    SplitAfter(owner, rest, '/');
    SplitAfter(host, p3, '/');
    SplitAfter([], p2, '/');
    SplitAfter(scheme, p1, '/');
    assert Split(url, '/') == [scheme, [], host, owner] + Split(rest, '/');
    if tail == "" {
      assert rest == repo;
      SplitNoSeparator(repo, '/');
    } else {
      assert rest == repo + ['/'] + tail[1..];
      SplitAfter(repo, tail[1..], '/');
    }
    assert Split(rest, '/')[0] == repo;
  }

  /** The client's argument check on `GetAll(owner, name)`: both present
      and neither empty; otherwise it throws before asking GitHub. */
  predicate ValidRepo(r: Repo) {
    r.0.Some? && r.1.Some? && r.0.value != "" && r.1.value != ""
  }

  /** `GetOrSetAsync` under the full URL: a cached list is answered as it is;
      otherwise GitHub is asked for the repository and the answer cached. When
      the client refuses the owner or name, the exception passes through the
      cache, which stores nothing. */
  function CachedReleases(fetch: Repo -> seq<Release>, cache: map<string, seq<Release>>,
                          requests: seq<Repo>, url: string)
    : (map<string, seq<Release>>, seq<Repo>, Exit<seq<Release>>)
  {
    if url in cache then (cache, requests, Returned(cache[url]))
    else if !ValidRepo(RepoOf(url)) then (cache, requests, Raised)
    else (cache[url := fetch(RepoOf(url))], requests + [RepoOf(url)], Returned(fetch(RepoOf(url))))
  }

  /** A lookup answers the cached entry when there is one. Otherwise it
      throws exactly when the URL names no valid repository, and then nothing
      is cached or asked; a valid one is asked once and cached under the URL. */
  lemma CachedReleasesCases(fetch: Repo -> seq<Release>, cache: map<string, seq<Release>>,
                            requests: seq<Repo>, url: string)
    ensures var (c1, q1, r1) := CachedReleases(fetch, cache, requests, url);
      && (url in cache ==> c1 == cache && q1 == requests && r1 == Returned(cache[url]))
      && (url !in cache ==> (r1.Raised? <==> !ValidRepo(RepoOf(url))))
      && (url !in cache && r1.Raised? ==> c1 == cache && q1 == requests)
      && (url !in cache && r1.Returned? ==>
            c1 == cache[url := r1.value] && q1 == requests + [RepoOf(url)] && r1.value == fetch(RepoOf(url)))
  {
  }

  /** A URL with fewer than five `/`-parts names no repository: the lookup
      throws and caches nothing. */
  lemma ShortUrlRaises(fetch: Repo -> seq<Release>, cache: map<string, seq<Release>>,
                       requests: seq<Repo>, url: string)
    requires url !in cache && |Split(url, '/')| <= 4
    ensures CachedReleases(fetch, cache, requests, url) == (cache, requests, Raised)
  {
  }

  /** Asking twice for a URL asks GitHub at most once, and the second answer
      is the first. */
  lemma CachedOnce(fetch: Repo -> seq<Release>, cache: map<string, seq<Release>>,
                   requests: seq<Repo>, url: string)
    ensures var (c1, q1, r1) := CachedReleases(fetch, cache, requests, url);
      var (c2, q2, r2) := CachedReleases(fetch, c1, q1, url);
      c2 == c1 && q2 == q1 && r2 == r1 && |q1| <= |requests| + 1
      && (url in cache ==> r1 == Returned(cache[url]) && q1 == requests)
  {
  }

  /** The cache key is the URL itself: two URLs of one repository are two
      entries, each fetched once. */
  lemma KeyIsTheUrl(fetch: Repo -> seq<Release>, cache: map<string, seq<Release>>,
                    requests: seq<Repo>, url1: string, url2: string)
    requires url1 != url2 && url1 !in cache && url2 !in cache
    requires ValidRepo(RepoOf(url1)) && ValidRepo(RepoOf(url2))
    ensures var (c1, q1, _) := CachedReleases(fetch, cache, requests, url1);
      var (c2, q2, _) := CachedReleases(fetch, c1, q1, url2);
      q2 == requests + [RepoOf(url1), RepoOf(url2)] && c2.Keys == cache.Keys + {url1, url2}
  {
  }

  // ---------------------------------------------------- the asset filter

  /** The size limit as written: `100 * 1024 ^ 2` is `(100 * 1024) XOR 2`. */
  const SizeLimitBits: bv32 := (100 * 1024) ^ 2
  const SizeLimitAsWritten: int := SizeLimitBits as int

  /** The limit the comment beside it states: 100 MB. */
  const MaxAssetSize: int := 100 * 1024 * 1024

  /** The assets of at most `limit` bytes, in their order. */
  function KeptAssets(assets: seq<Asset>, limit: int): (r: seq<Asset>)
    ensures |r| <= |assets|
    ensures forall a :: a in r <==> a in assets && a.size <= limit
  {
    if |assets| == 0 then []
    else if assets[0].size <= limit then [assets[0]] + KeptAssets(assets[1..], limit)
    else KeptAssets(assets[1..], limit)
  }

  /** The filter keeps the order: filtering a concatenation filters both
      halves. */
  lemma {:induction false} KeptAssetsAppend(a: seq<Asset>, b: seq<Asset>, limit: int)
    ensures KeptAssets(a + b, limit) == KeptAssets(a, limit) + KeptAssets(b, limit)
  {
    if |a| > 0 {
      assert (a + b)[1..] == a[1..] + b;
      KeptAssetsAppend(a[1..], b, limit);
    } else {
      assert a + b == b;
    }
  }

  /** One document per asset, named and captioned with the asset's name. */
  function Documents(assets: seq<Asset>): (r: seq<AlbumItem>)
    ensures |r| == |assets|
    ensures forall i :: 0 <= i < |assets| ==> r[i] == DocumentItem(assets[i].name, assets[i].name)
  {
    if |assets| == 0 then [] else [DocumentItem(assets[0].name, assets[0].name)] + Documents(assets[1..])
  }

  /** The album of the latest release, the first of the list, or null for
      a repository without releases. */
  function LatestAlbum(releases: seq<Release>, limit: int): Option<seq<AlbumItem>> {
    if |releases| == 0 then None else Some(Documents(KeptAssets(releases[0].assets, limit)))
  }

  /** `GetLatestReleaseAssets` as written, with the XOR limit. */
  function LatestAlbumAsWritten(releases: seq<Release>): Option<seq<AlbumItem>> {
    LatestAlbum(releases, SizeLimitAsWritten)
  }

  /** The album holds, in order, one document for each asset of the first
      release that fits the limit, and for no other asset. */
  lemma AlbumOfFirstRelease(releases: seq<Release>, limit: int)
    ensures LatestAlbum(releases, limit).Some? <==> |releases| > 0
    ensures |releases| > 0 ==>
      var kept := KeptAssets(releases[0].assets, limit);
      var album := LatestAlbum(releases, limit).value;
      |album| == |kept| && (forall i :: 0 <= i < |kept| ==> album[i] == DocumentItem(kept[i].name, kept[i].name))
      && (forall a :: a in kept <==> a in releases[0].assets && a.size <= limit)
  {
  }

  lemma SizeLimitAsWrittenValue()
    ensures SizeLimitAsWritten == 102402
  {
  }

  /** As written, the limit is 102402 bytes, not 100 MB: an asset of one
      megabyte is left out of the album although it is far below 100 MB. */
  lemma XorLimitDropsLargeAssets(a: Asset, tagName: string)
    requires 102402 < a.size <= MaxAssetSize
    ensures SizeLimitAsWritten == 102402
    ensures LatestAlbumAsWritten([Release(tagName, [a])]) == Some([])
    ensures LatestAlbum([Release(tagName, [a])], MaxAssetSize) == Some([DocumentItem(a.name, a.name)])
  {
    SizeLimitAsWrittenValue();
    assert [a][1..] == [];
    assert KeptAssets([a], MaxAssetSize) == [a];
    assert Documents([a]) == [DocumentItem(a.name, a.name)];
  }

  class OctokitApiService {
    /** GitHub's releases of an (owner, repository), newest first. */
    const fetch: Repo -> seq<Release>
    /** The cache, keyed by URL. */
    var cache: map<string, seq<Release>>
    /** The repositories GitHub was asked for, in order. */
    var requests: seq<Repo>

    constructor(fetch: Repo -> seq<Release>)
      ensures this.fetch == fetch && cache == map[] && requests == []
    {
      this.fetch := fetch;
      cache := map[];
      requests := [];
    }

    /** `GetGithubReleaseAssets`. */
    method GetGithubReleaseAssets(url: string) returns (releases: Exit<seq<Release>>)
      modifies this`cache, this`requests
      ensures (cache, requests, releases) == CachedReleases(fetch, old(cache), old(requests), url)
    {
      var repo := RepoOf(url);
      if url in cache {
        releases := Returned(cache[url]);
      } else if !ValidRepo(repo) {
        releases := Raised;
      } else {
        var fetched := fetch(repo);
        requests := requests + [repo];
        cache := cache[url := fetched];
        releases := Returned(fetched);
      }
    }

    /** `GetLatestReleaseAssets`, with the 100 MB limit; a lookup that
        throws throws. */
    method GetLatestReleaseAssets(url: string) returns (album: Exit<Option<seq<AlbumItem>>>)
      modifies this`cache, this`requests
      ensures var (c, q, r) := CachedReleases(fetch, old(cache), old(requests), url);
        cache == c && requests == q
        && album == (if r.Raised? then Raised else Returned(LatestAlbum(r.value, MaxAssetSize)))
    {
      var lookup := GetGithubReleaseAssets(url);
      if lookup.Raised? {
        return Raised;
      }
      var releaseAll := lookup.value;
      if |releaseAll| == 0 {
        return Returned(None);
      }
      ghost var (c0, q0) := (cache, requests);
      var latestRelease := releaseAll[0];
      var filteredAssets := KeptAssets(latestRelease.assets, MaxAssetSize);
      var listAlbum: seq<AlbumItem> := [];
      var i := 0;
      while i < |filteredAssets|
        invariant 0 <= i <= |filteredAssets|
        invariant listAlbum == Documents(filteredAssets[..i])
        invariant cache == c0 && requests == q0
      {
        var asset := filteredAssets[i];
        listAlbum := listAlbum + [DocumentItem(asset.name, asset.name)];
        i := i + 1;
        assert filteredAssets[..i] == filteredAssets[..i - 1] + [asset];
        DocumentsAppend(filteredAssets[..i - 1], [asset]);
      }
      assert filteredAssets[..i] == filteredAssets;
      return Returned(Some(listAlbum));
    }
  }

  lemma {:induction false} DocumentsAppend(a: seq<Asset>, b: seq<Asset>)
    ensures Documents(a + b) == Documents(a) + Documents(b)
  {
    if |a| > 0 {
      assert (a + b)[1..] == a[1..] + b;
      DocumentsAppend(a[1..], b);
    } else {
      assert a + b == b;
    }
  }
}
