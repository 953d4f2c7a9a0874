/**
 * The index page: the feed's `videos` state, the like/share/download
 * handler, the simulated video generation that prepends a new video, and
 * the profile list filtered by the current user's name.
 */
module IndexPage {
  import opened Seqs
  import opened VideoCard
  import VideoService
  import PromptForm
  import VideoFeed

  datatype View = FeedView | CreateView | ProfileView

  /** The fixed current user's name and avatar (`currentUser`). */
  const CurrentUsername := "you"
  const CurrentAvatar := "https://images.unsplash.com/photo-1472099645785-5658abf4ff4e?w=100"

  const GeneratedVideoUrl := "https://commondatastorage.googleapis.com/gtv-videos-bucket/sample/Sintel.mp4"
  const GeneratedThumbnail := "https://images.unsplash.com/photo-1649972904349-6e44c42644a7?w=500"

  /** The initial mock feed. */
  const MockVideos: seq<Video> := [
    Video(
      "1",
      "https://commondatastorage.googleapis.com/gtv-videos-bucket/sample/BigBuckBunny.mp4",
      "https://images.unsplash.com/photo-1506744038136-46273834b3fb?w=500",
      "A majestic golden retriever running through a sunlit meadow with butterflies dancing around, shot in cinematic style with warm lighting",
      VideoService.Creator("alex_creates", "https://images.unsplash.com/photo-1472099645785-5658abf4ff4e?w=100"),
      234, 45, "Cinematic", 30, false),
    Video(
      "2",
      "https://commondatastorage.googleapis.com/gtv-videos-bucket/sample/ElephantsDream.mp4",
      "https://images.unsplash.com/photo-1500673922987-e212871fec22?w=500",
      "Abstract geometric shapes morphing and transforming in a vibrant digital space with neon colors",
      VideoService.Creator("digital_artist", "https://images.unsplash.com/photo-1494790108755-2616b612b19c?w=100"),
      189, 32, "Abstract", 45, true),
    Video(
      "3",
      "https://commondatastorage.googleapis.com/gtv-videos-bucket/sample/ForBiggerBlazes.mp4",
      "https://images.unsplash.com/photo-1518770660439-4636190af475?w=500",
      "A cozy coffee shop in the rain with people working on laptops, warm interior lighting, documentary style",
      VideoService.Creator("story_teller", "https://images.unsplash.com/photo-1507003211169-0a1dd7228f2d?w=100"),
      156, 28, "Documentary", 25, false)
  ]

  // ------------------------------------------------------------ like

  /** The record a 'like' produces: `isLiked` flipped, `likes` moved one step the matching way. */
  function Toggled(v: Video): (t: Video)
    ensures t.isLiked == !v.isLiked
    ensures t.likes == if v.isLiked then v.likes - 1 else v.likes + 1
    ensures t.(isLiked := v.isLiked, likes := v.likes) == v
  {
    v.(isLiked := !v.isLiked, likes := if v.isLiked then v.likes - 1 else v.likes + 1)
  }

  /** A second 'like' undoes the first. */
  lemma ToggledTwice(v: Video)
    ensures Toggled(Toggled(v)) == v
  {
  }

  /** The `prev.map(...)` of a 'like': the videos with `id` toggled, all others as they were. */
  function ToggleLike(videos: seq<Video>, id: string): (r: seq<Video>)
    ensures |r| == |videos|
    ensures forall i :: 0 <= i < |videos| ==> r[i] == if videos[i].id == id then Toggled(videos[i]) else videos[i]
  {
    if videos == [] then []
    else [if videos[0].id == id then Toggled(videos[0]) else videos[0]] + ToggleLike(videos[1..], id)
  }

  /** Liking the same id twice restores the list. */
  lemma LikeTwiceRestores(videos: seq<Video>, id: string)
    ensures ToggleLike(ToggleLike(videos, id), id) == videos
  {
    forall i | 0 <= i < |videos|
      ensures ToggleLike(ToggleLike(videos, id), id)[i] == videos[i]
    {
      ToggledTwice(videos[i]);
    }
  }

  /** Liking an id that is not in the list leaves it unchanged. */
  lemma LikeUnknownIdUnchanged(videos: seq<Video>, id: string)
    requires forall i :: 0 <= i < |videos| ==> videos[i].id != id
    ensures ToggleLike(videos, id) == videos
  {
  }

  /**
   * A 'like' commutes with a filter whose verdict it cannot change: liking
   * then filtering gives the filtered list with the same video liked.
   */
  lemma {:induction false} LikeCommutesWithFilter(videos: seq<Video>, id: string, p: Video -> bool)
    requires forall v :: p(Toggled(v)) == p(v)
    ensures Filter(ToggleLike(videos, id), p) == ToggleLike(Filter(videos, p), id)
  {
    if videos != [] {
      var head := if videos[0].id == id then Toggled(videos[0]) else videos[0];
      assert ToggleLike(videos, id) == [head] + ToggleLike(videos[1..], id);
      assert ([head] + ToggleLike(videos[1..], id))[1..] == ToggleLike(videos[1..], id);
      LikeCommutesWithFilter(videos[1..], id, p);
    }
  }

  /** Searching the feed and liking a video can be done in either order. */
  lemma LikeCommutesWithSearch(videos: seq<Video>, id: string, query: string)
    ensures VideoFeed.FilteredVideos(ToggleLike(videos, id), query)
         == ToggleLike(VideoFeed.FilteredVideos(videos, query), id)
  {
    LikeCommutesWithFilter(videos, id, VideoFeed.Matcher(query));
  }

  // ------------------------------------------------------------ create

  /** `newVideo`: the generated video built from the submitted form. */
  function NewVideo(form: PromptForm.FormData, id: string): (v: Video)
    ensures v.id == id && v.prompt == form.prompt && v.style == form.style && v.duration == form.duration
    ensures v.likes == 0 && v.comments == 0 && !v.isLiked
    ensures v.creator == VideoService.Creator(CurrentUsername, CurrentAvatar)
  {
    Video(id, GeneratedVideoUrl, GeneratedThumbnail, form.prompt,
      VideoService.Creator(CurrentUsername, CurrentAvatar), 0, 0, form.style, form.duration, false)
  }

  // ------------------------------------------------------------ profile

  function OwnedBy(username: string): Video -> bool
  {
    (v: Video) => v.creator.username == username
  }

  /** The profile's `videos.filter(...)`: the user's own videos in feed order. */
  function ProfileVideos(videos: seq<Video>, username: string): (r: seq<Video>)
    ensures IsSubsequence(r, videos)
    ensures forall i :: 0 <= i < |r| ==> r[i].creator.username == username
    ensures forall i :: 0 <= i < |videos| && videos[i].creator.username == username ==> videos[i] in r
    ensures forall v :: multiset(r)[v] == if v.creator.username == username then multiset(videos)[v] else 0
  {
    FilterIsSubsequence(videos, OwnedBy(username));
    FilterMultiplicities(videos, OwnedBy(username));
    Filter(videos, OwnedBy(username))
  }

  /** A generated video heads the current user's profile list; the rest is as before. */
  lemma NewVideoHeadsProfile(form: PromptForm.FormData, id: string, videos: seq<Video>)
    ensures ProfileVideos([NewVideo(form, id)] + videos, CurrentUsername)
         == [NewVideo(form, id)] + ProfileVideos(videos, CurrentUsername)
  {
    assert ([NewVideo(form, id)] + videos)[1..] == videos;
  }

  /** Liking a video and listing a profile can be done in either order. */
  lemma LikeCommutesWithProfile(videos: seq<Video>, id: string, username: string)
    ensures ProfileVideos(ToggleLike(videos, id), username) == ToggleLike(ProfileVideos(videos, username), id)
  {
    LikeCommutesWithFilter(videos, id, OwnedBy(username));
  }

  // ------------------------------------------------------------ page state

  /**
   * The page component's state. `pending` holds, oldest first, the forms
   * whose generation timers have not fired yet: each `handleCreateVideo`
   * call arms a 5-second timer whose callback captures its `formData`.
   * Timers of equal delay fire in the order they were set.
   */
  class Index {
    var videos: seq<Video>
    var showCreateDialog: bool
    var isGenerating: bool
    var currentView: View
    var pending: seq<PromptForm.FormData>

    constructor ()
      ensures videos == MockVideos
      ensures !showCreateDialog && !isGenerating && currentView == FeedView && pending == []
    {
      videos := MockVideos;
      showCreateDialog := false;
      isGenerating := false;
      currentView := FeedView;
      pending := [];
    }

    /** `handleVideoAction`: only 'like' touches the list; 'share', 'download' and others only notify. */
    method HandleVideoAction(action: string, videoId: string)
      modifies this
      ensures videos == if action == "like" then ToggleLike(old(videos), videoId) else old(videos)
      ensures showCreateDialog == old(showCreateDialog) && isGenerating == old(isGenerating)
      ensures currentView == old(currentView) && pending == old(pending)
    {
      if action == "like" {
        videos := ToggleLike(videos, videoId);
      }
    }

    /** `setShowCreateDialog`, from the header button, the hero button or the dialog itself. */
    method SetShowCreateDialog(open: bool)
      modifies this
      ensures showCreateDialog == open
      ensures videos == old(videos) && isGenerating == old(isGenerating) && currentView == old(currentView)
      ensures pending == old(pending)
    {
      showCreateDialog := open;
    }

    /** `handleCreateVideo(form)` up to the timer: generation is in progress and the form awaits its timer. */
    method HandleCreateVideo(form: PromptForm.FormData)
      modifies this
      ensures isGenerating
      ensures pending == old(pending) + [form]
      ensures videos == old(videos) && showCreateDialog == old(showCreateDialog) && currentView == old(currentView)
    {
      isGenerating := true;
      pending := pending + [form];
    }

    /**
     * The oldest timer's callback: the video built from the form it
     * captured is prepended, and the flags are cleared (even if later
     * timers are still armed, as in the source).
     */
    method GenerationFinished(newId: string)
      requires pending != []
      modifies this
      ensures videos == [NewVideo(old(pending)[0], newId)] + old(videos)
      ensures pending == old(pending)[1..]
      ensures !isGenerating && !showCreateDialog
      ensures currentView == old(currentView)
    {
      videos := [NewVideo(pending[0], newId)] + videos;
      pending := pending[1..];
      isGenerating := false;
      showCreateDialog := false;
    }

    /** One generation from submit to timer: the submitted form's video heads the list. */
    method CreateVideo(form: PromptForm.FormData, newId: string)
      requires pending == []
      modifies this
      ensures videos == [NewVideo(form, newId)] + old(videos)
      ensures videos[0].prompt == form.prompt && videos[0].style == form.style && videos[0].duration == form.duration
      ensures pending == [] && !isGenerating && !showCreateDialog && currentView == old(currentView)
    {
      HandleCreateVideo(form);
      GenerationFinished(newId);
    }

    /** The list the profile view renders. */
    function ProfileList(): (r: seq<Video>)
      reads this
      ensures IsSubsequence(r, videos)
      ensures forall i :: 0 <= i < |r| ==> r[i].creator.username == CurrentUsername
      ensures forall i :: 0 <= i < |videos| && videos[i].creator.username == CurrentUsername ==> videos[i] in r
      ensures forall v :: multiset(r)[v] == if v.creator.username == CurrentUsername then multiset(videos)[v] else 0
    {
      ProfileVideos(videos, CurrentUsername)
    }
  }
}
