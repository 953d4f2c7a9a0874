/** The feed's search box: a case-insensitive substring filter over prompt or creator name. */
module VideoFeed {
  import opened Text
  import opened Seqs
  import opened VideoCard

  /** The `filter` callback: the lower-cased prompt or username includes the lower-cased query. */
  predicate MatchesQuery(video: Video, query: string)
    ensures query == "" ==> MatchesQuery(video, query)
    ensures MatchesQuery(video, query) ==> |query| <= |video.prompt| || |query| <= |video.creator.username|
  {
    assert Lower("") == "";
    ContainsEmpty(Lower(video.prompt));
    Contains(Lower(video.prompt), Lower(query)) || Contains(Lower(video.creator.username), Lower(query))
  }

  function Matcher(query: string): Video -> bool
  {
    (video: Video) => MatchesQuery(video, query)
  }

  /** `filteredVideos`: the videos that match, in feed order. */
  function FilteredVideos(videos: seq<Video>, query: string): (r: seq<Video>)
    ensures IsSubsequence(r, videos)
    ensures forall i :: 0 <= i < |r| ==> MatchesQuery(r[i], query)
    ensures forall i :: 0 <= i < |videos| && MatchesQuery(videos[i], query) ==> videos[i] in r
    ensures forall v :: multiset(r)[v] == if MatchesQuery(v, query) then multiset(videos)[v] else 0
  {
    FilterIsSubsequence(videos, Matcher(query));
    FilterMultiplicities(videos, Matcher(query));
    Filter(videos, Matcher(query))
  }

  /** An empty search box shows the whole feed. */
  lemma EmptyQueryKeepsAll(videos: seq<Video>)
    ensures FilteredVideos(videos, "") == videos
  {
    assert Lower("") == "";
    forall i | 0 <= i < |videos|
      ensures Matcher("")(videos[i])
    {
      ContainsEmpty(Lower(videos[i].prompt));
    }
    FilterAllPass(videos, Matcher(""));
  }

  /** Queries that differ only in letter case select the same videos. */
  lemma QueryCaseInsensitive(videos: seq<Video>, q1: string, q2: string)
    requires Lower(q1) == Lower(q2)
    ensures FilteredVideos(videos, q1) == FilteredVideos(videos, q2)
  {
    FilterCongruent(videos, Matcher(q1), Matcher(q2));
  }

  /** Searching the search result again with the same query changes nothing. */
  lemma SearchIdempotent(videos: seq<Video>, query: string)
    ensures FilteredVideos(FilteredVideos(videos, query), query) == FilteredVideos(videos, query)
  {
    FilterIdempotent(videos, Matcher(query));
  }
}
