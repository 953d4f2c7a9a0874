/**
 * The video card: the record it renders, the 100-character prompt cut
 * with its show-more button, and the card's two click-toggled flags.
 */
module VideoCard {
  import VideoService

  /** The video a card renders (`VideoCardProps.video`); the feed is a sequence of these. */
  datatype Video = Video(
    id: string,
    videoUrl: string,
    thumbnail: string,
    prompt: string,
    creator: VideoService.Creator,
    likes: int,
    comments: int,
    style: string,
    duration: int,
    isLiked: bool)

  const PromptLimit := 100
  const Ellipsis := "..."

  /** `truncatedPrompt`: the first 100 characters and `"..."` when the prompt is longer. */
  function TruncatedPrompt(prompt: string): (shown: string)
    ensures |prompt| <= PromptLimit ==> shown == prompt
    ensures |prompt| > PromptLimit ==> |shown| == PromptLimit + 3 && shown == prompt[..PromptLimit] + Ellipsis
    ensures var n := if |prompt| <= PromptLimit then |prompt| else PromptLimit;
      n <= |shown| && shown[..n] == prompt[..n]
  {
    if |prompt| > PromptLimit then prompt[..PromptLimit] + Ellipsis else prompt
  }

  /** The show-more button is rendered for prompts over the limit. */
  predicate ShowMoreButton(prompt: string)
    ensures ShowMoreButton(prompt) ==> |prompt| > PromptLimit && TruncatedPrompt(prompt) == prompt[..PromptLimit] + Ellipsis && |TruncatedPrompt(prompt)| == PromptLimit + 3
    ensures !ShowMoreButton(prompt) ==> TruncatedPrompt(prompt) == prompt
  {
    |prompt| > PromptLimit
  }

  /** Whenever truncation alters the text, the button is there to reveal the rest. */
  lemma TruncationImpliesButton(prompt: string)
    ensures TruncatedPrompt(prompt) != prompt ==> ShowMoreButton(prompt)
  {
  }

  /**
   * The converse fails for exactly one shape of prompt: 103 characters
   * ending in "...", which the cut leaves unchanged although the button
   * is shown.
   */
  lemma ButtonIffTruncationChanged(prompt: string)
    requires !(|prompt| == PromptLimit + 3 && prompt[PromptLimit..] == Ellipsis)
    ensures ShowMoreButton(prompt) <==> TruncatedPrompt(prompt) != prompt
  {
    if |prompt| > PromptLimit {
      assert TruncatedPrompt(prompt)[PromptLimit..] == Ellipsis;
    }
  }

  /** A prompt on which the button is shown while the cut changes nothing. */
  lemma ButtonWithoutVisibleCut()
    ensures exists prompt :: ShowMoreButton(prompt) && TruncatedPrompt(prompt) == prompt
  {
    var prompt := seq(PromptLimit, _ => 'a') + Ellipsis;
    assert prompt[..PromptLimit] == seq(PromptLimit, _ => 'a');
    assert ShowMoreButton(prompt) && TruncatedPrompt(prompt) == prompt;
  }

  /** The per-card state: `isPlaying` and `showFullPrompt`, both initially false. */
  class Card {
    const video: Video
    var isPlaying: bool
    var showFullPrompt: bool

    constructor (video: Video)
      ensures this.video == video
      ensures !isPlaying && !showFullPrompt
    {
      this.video := video;
      isPlaying := false;
      showFullPrompt := false;
    }

    /** The prompt text the card shows. */
    function DisplayedPrompt(): (shown: string)
      reads this
      ensures showFullPrompt ==> shown == video.prompt
      ensures !showFullPrompt ==> shown == TruncatedPrompt(video.prompt)
    {
      if showFullPrompt then video.prompt else TruncatedPrompt(video.prompt)
    }

    /** A click on the video flips `isPlaying`. */
    method ClickVideo()
      modifies this
      ensures isPlaying == !old(isPlaying)
      ensures showFullPrompt == old(showFullPrompt)
    {
      isPlaying := !isPlaying;
    }

    /** The show-more/show-less button, present only for long prompts, flips `showFullPrompt`. */
    method ClickShowMore()
      requires ShowMoreButton(video.prompt)
      modifies this
      ensures showFullPrompt == !old(showFullPrompt)
      ensures isPlaying == old(isPlaying)
    {
      showFullPrompt := !showFullPrompt;
    }
  }
}
