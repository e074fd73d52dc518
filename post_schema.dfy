/**
 * The post document of `models/post.model.js`: its fields, the defaults
 * Mongoose fills in when a document is built, and the validation that
 * `save` runs (required title of at most 300 characters, body required for
 * text and link posts only, required author, the two enumerations).
 */
module PostSchema {
  import opened Common

  datatype PostType = Text | Link | Image | Video
  datatype PostStatus = Flagged | Removed | Active

  datatype Post = Post(
    title: string,
    body: Option<string>,
    url: string,
    tags: seq<string>,
    author: Id,
    communityId: Option<Id>,
    kind: PostType,
    upvotes: seq<Id>,
    downvotes: seq<Id>,
    numComments: int,
    status: PostStatus,
    spamScore: Option<int>,
    toxicityScore: Option<int>,
    score: int,
    isPinned: bool,
    isLocked: bool)

  /** The fields a caller passes to `new Post({...})`; `None` is a field left undefined. */
  datatype PostDraft = PostDraft(
    title: Option<string>,
    body: Option<string>,
    url: Option<string>,
    tags: Option<seq<string>>,
    author: Option<Id>,
    communityId: Option<Id>,
    kind: Option<string>,
    status: Option<string>)

  /** Outcome of building and validating a document: the stored post, or the
      set of paths whose validators failed (Mongoose reports them all at once). */
  datatype Built = Valid(post: Post) | Invalid(paths: set<string>)

  const MaxTitleLength := 300

  function ParseType(s: string): Option<PostType>
  {
    match s
    case "text" => Some(Text)
    case "link" => Some(Link)
    case "image" => Some(Image)
    case "video" => Some(Video)
    case _ => None
  }

  function ParseStatus(s: string): Option<PostStatus>
  {
    match s
    case "flagged" => Some(Flagged)
    case "removed" => Some(Removed)
    case "active" => Some(Active)
    case _ => None
  }

  /** The type after defaults: an undefined type becomes `"text"`. */
  function DraftType(d: PostDraft): Option<PostType>
  {
    if d.kind.None? then Some(Text) else ParseType(d.kind.value)
  }

  /** Mongoose's `required` on a String path fails on undefined, null and the empty string. */
  predicate Missing(s: Option<string>)
  {
    !Truthy(s)
  }

  /** The paths whose validators fail for a draft. */
  function FailingPaths(d: PostDraft): set<string>
  {
    var kind := DraftType(d);
    (if Missing(d.title) || |d.title.value| > MaxTitleLength then {"title"} else {})
    + (if kind.Some? && kind.value in {Text, Link} && Missing(d.body) then {"body"} else {})
    + (if d.author.None? then {"author"} else {})
    + (if kind.None? then {"type"} else {})
    + (if d.status.Some? && ParseStatus(d.status.value).None? then {"status"} else {})
  }

  /** `new Post(draft).save()`: defaults first, then validation. */
  function Build(d: PostDraft): (b: Built)
    ensures b.Invalid? <==> FailingPaths(d) != {}
    ensures b.Invalid? ==> b.paths == FailingPaths(d)
    ensures b.Valid? ==> b.post.title == d.title.value && 0 < |b.post.title| <= MaxTitleLength
    ensures b.Valid? && b.post.kind in {Text, Link} ==> b.post.body.Some? && b.post.body.value != ""
    ensures b.Valid? ==> b.post.upvotes == [] && b.post.downvotes == [] && b.post.numComments == 0
                         && b.post.score == 0 && !b.post.isPinned && !b.post.isLocked
    ensures b.Valid? && d.kind.None? ==> b.post.kind == Text
    ensures b.Valid? && d.status.None? ==> b.post.status == Active
    ensures b.Valid? && d.url.None? ==> b.post.url == ""
  {
    var paths := FailingPaths(d);
    if paths != {} then Invalid(paths)
    else
      Valid(Post(
        title := d.title.value,
        body := d.body,
        url := if d.url.Some? then d.url.value else "",
        tags := if d.tags.Some? then d.tags.value else [],
        author := d.author.value,
        communityId := d.communityId,
        kind := DraftType(d).value,
        upvotes := [],
        downvotes := [],
        numComments := 0,
        status := if d.status.Some? then ParseStatus(d.status.value).value else Active,
        spamScore := None,
        toxicityScore := None,
        score := 0,
        isPinned := false,
        isLocked := false))
  }

  /** The body may be left out exactly for image and video posts. */
  lemma BodyOptionalForMedia(d: PostDraft)
    requires Truthy(d.title) && |d.title.value| <= MaxTitleLength && d.author.Some? && d.status.None?
    requires d.kind == Some("image") || d.kind == Some("video")
    ensures Build(d).Valid?
  {
  }

  /** A text or link post without a body is refused, whatever its other fields. */
  lemma TextPostNeedsBody(d: PostDraft)
    requires d.kind.None? || d.kind == Some("text") || d.kind == Some("link")
    requires !Truthy(d.body)
    ensures Build(d).Invalid? && "body" in Build(d).paths
  {
  }
}
