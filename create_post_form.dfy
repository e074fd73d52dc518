/**
 * The create-post page of `pages/publicPages/CreatePostPage.jsx`: the
 * form's validation, which fills an error map field by field, and the
 * request body its submit handler assembles once the form is valid. The
 * page's inputs (post type, community choice, title, content, link, image)
 * are parameters; `parse` is the browser's `URL` constructor.
 */
module CreatePostForm {
  import opened Common

  const TitleRequired := "Title is required"
  const TitleTooLong := "Title must be less than 300 characters"
  const ContentRequired := "Post content is required"
  const ContentTooLong := "Post content must be less than 40,000 characters"
  const UrlRequired := "URL is required"
  const UrlInvalid := "Please enter a valid URL"
  const ImageRequired := "Please select an image"

  /** The post types the page's tabs offer. */
  datatype PostKind = TextPost | ImagePost | LinkPost

  /** The `type` value sent for each. */
  function KindName(kind: PostKind): string
  {
    match kind
    case TextPost => "text"
    case ImagePost => "image"
    case LinkPost => "link"
  }

  /** The form's rules: a title that is not blank and at most 300
      characters; for a text post, content that is not blank and at most
      40000 characters; for a link post, a link that is not blank and
      parses; for an image post, a chosen file. */
  predicate Acceptable(kind: PostKind, title: string, content: string, url: string, imageFile: Option<Id>,
                       parse: string -> ParsedUrl)
  {
    !AllSpace(title) && |title| <= 300
    && (kind == TextPost ==> !AllSpace(content) && |content| <= 40000)
    && (kind == LinkPost ==> !AllSpace(url) && parse(url) != Unparsable)
    && (kind == ImagePost ==> imageFile.Some?)
  }

  /** The keys of the error object. */
  datatype ErrorKey = TitleKey | ContentKey | UrlKey | ImageKey

  /** The property name each key is stored under. */
  function KeyName(k: ErrorKey): string
  {
    match k
    case TitleKey => "title"
    case ContentKey => "content"
    case UrlKey => "url"
    case ImageKey => "image"
  }

  /** `validateForm`: the error map, one entry per broken rule with its
      message, and whether it is empty. */
  method ValidateForm(kind: PostKind, title: string, content: string, url: string, imageFile: Option<Id>,
                      parse: string -> ParsedUrl) returns (errors: map<ErrorKey, string>, valid: bool)
    ensures TitleKey in errors <==> AllSpace(title) || |title| > 300
    ensures TitleKey in errors ==> errors[TitleKey] == (if AllSpace(title) then TitleRequired else TitleTooLong)
    ensures ContentKey in errors <==> kind == TextPost && (AllSpace(content) || |content| > 40000)
    ensures ContentKey in errors ==> errors[ContentKey] == (if AllSpace(content) then ContentRequired else ContentTooLong)
    ensures UrlKey in errors <==> kind == LinkPost && (AllSpace(url) || parse(url) == Unparsable)
    ensures UrlKey in errors ==> errors[UrlKey] == (if AllSpace(url) then UrlRequired else UrlInvalid)
    ensures ImageKey in errors <==> kind == ImagePost && imageFile.None?
    ensures ImageKey in errors ==> errors[ImageKey] == ImageRequired
    ensures valid <==> |errors| == 0
    ensures valid <==> Acceptable(kind, title, content, url, imageFile, parse)
  {
    var titleBlank := IsBlank(title);
    var contentBlank := IsBlank(content);
    var urlBlank := IsBlank(url);
    errors := map[];
    if titleBlank {
      errors := errors[TitleKey := TitleRequired];
    } else if |title| > 300 {
      errors := errors[TitleKey := TitleTooLong];
    }
    if kind == TextPost && contentBlank {
      errors := errors[ContentKey := ContentRequired];
    } else if kind == TextPost && |content| > 40000 {
      errors := errors[ContentKey := ContentTooLong];
    }
    if kind == LinkPost && urlBlank {
      errors := errors[UrlKey := UrlRequired];
    } else if kind == LinkPost && !urlBlank {
      if parse(url) == Unparsable {
        errors := errors[UrlKey := UrlInvalid];
      }
    }
    if kind == ImagePost && imageFile.None? {
      errors := errors[ImageKey := ImageRequired];
    }
    valid := |errors| == 0;
    NoErrorsIffNoKeys(errors);
  }

  /** `!s.trim()`: the text is empty once trimmed, that is, it is all white space. */
  method IsBlank(s: string) returns (blank: bool)
    ensures blank <==> AllSpace(s)
  {
    blank := Trim(s) == "";
  }

  /** An error map is empty exactly when none of the four keys is present. */
  lemma NoErrorsIffNoKeys(errors: map<ErrorKey, string>)
    ensures |errors| == 0 <==> TitleKey !in errors && ContentKey !in errors && UrlKey !in errors && ImageKey !in errors
  {
    if TitleKey !in errors && ContentKey !in errors && UrlKey !in errors && ImageKey !in errors {
      forall k: ErrorKey
        ensures k !in errors
      {
        match k
        case TitleKey =>
        case ContentKey =>
        case UrlKey =>
        case ImageKey =>
      }
      assert errors.Keys == {};
    }
  }

  /** One entry of the request body: text, or the chosen image file. */
  datatype Part = Text(text: string) | File(file: Id)

  /** The names the request body's entries are appended under. */
  datatype FieldName = TitleField | CommunityField | TypeField | BodyField | UrlField | MediaField

  /** The form-data name of each. */
  function FieldText(n: FieldName): string
  {
    match n
    case TitleField => "title"
    case CommunityField => "communityId"
    case TypeField => "type"
    case BodyField => "body"
    case UrlField => "url"
    case MediaField => "media"
  }

  /** The one field that carries the content of a post of type `kind`. */
  function ContentField(kind: PostKind): FieldName
  {
    match kind
    case TextPost => BodyField
    case LinkPost => UrlField
    case ImagePost => MediaField
  }

  /** The names of a run of entries, in order. */
  function Names(parts: seq<(FieldName, Part)>): seq<FieldName>
  {
    if parts == [] then [] else [parts[0].0] + Names(parts[1..])
  }

  lemma {:induction false} NamesConcat(a: seq<(FieldName, Part)>, b: seq<(FieldName, Part)>)
    ensures Names(a + b) == Names(a) + Names(b)
  {
    if a != [] {
      assert (a + b)[0] == a[0] && (a + b)[1..] == a[1..] + b;
      assert Names(a + b) == [a[0].0] + Names(a[1..] + b);
      NamesConcat(a[1..], b);
    } else {
      assert a + b == b;
    }
  }

  /** Whether the chosen community is sent: one is chosen and it is not `none`. */
  predicate SendsCommunity(selectedCommunity: string)
  {
    selectedCommunity != "" && selectedCommunity != "none"
  }

  /** The entry for the chosen community, when it is sent. */
  function CommunityPart(selectedCommunity: string): seq<(FieldName, Part)>
  {
    if SendsCommunity(selectedCommunity) then [(CommunityField, Text(selectedCommunity))] else []
  }

  /** The entry carrying the content of a post of type `kind`, if any. */
  function ContentPart(kind: PostKind, content: string, url: string, imageFile: Option<Id>): seq<(FieldName, Part)>
  {
    if kind == TextPost then [(BodyField, Text(content))]
    else if kind == LinkPost then [(UrlField, Text(url))]
    else if kind == ImagePost && imageFile.Some? then [(MediaField, File(imageFile.value))]
    else []
  }

  /** The request body, entry by entry, from the texts as they are sent
      (the submit handler trims title, content and link first). */
  function Body(kind: PostKind, selectedCommunity: string, title: string, content: string, url: string,
                imageFile: Option<Id>): seq<(FieldName, Part)>
  {
    [(TitleField, Text(title))] + CommunityPart(selectedCommunity)
    + [(TypeField, Text(KindName(kind)))] + ContentPart(kind, content, url, imageFile)
  }

  /** The names of the body of a form whose image post has a file. */
  lemma BodyNames(kind: PostKind, selectedCommunity: string, title: string, content: string, url: string,
                  imageFile: Option<Id>)
    requires kind == ImagePost ==> imageFile.Some?
    ensures Names(Body(kind, selectedCommunity, title, content, url, imageFile))
            == [TitleField] + (if SendsCommunity(selectedCommunity) then [CommunityField] else [])
               + [TypeField, ContentField(kind)]
  {
    var t := [(TitleField, Text(title))];
    var c := CommunityPart(selectedCommunity);
    var ty := [(TypeField, Text(KindName(kind)))];
    var k := ContentPart(kind, content, url, imageFile);
    NamesConcat(t, c);
    NamesConcat(t + c, ty);
    NamesConcat(t + c + ty, k);
    assert Names(k) == [ContentField(kind)];
  }

  /** The body of a form whose image post has a file (every valid form):
      the title first, the community exactly when one was chosen, the
      type, and exactly the one content field that matches the type,
      carrying the content or link or the chosen file. */
  lemma SubmittedFields(kind: PostKind, selectedCommunity: string, title: string, content: string, url: string,
                        imageFile: Option<Id>)
    requires kind == ImagePost ==> imageFile.Some?
    ensures Body(kind, selectedCommunity, title, content, url, imageFile)[0] == (TitleField, Text(title))
    ensures CommunityField in Names(Body(kind, selectedCommunity, title, content, url, imageFile))
            <==> SendsCommunity(selectedCommunity)
    ensures SendsCommunity(selectedCommunity) ==>
              Body(kind, selectedCommunity, title, content, url, imageFile)[1] == (CommunityField, Text(selectedCommunity))
    ensures (TypeField, Text(KindName(kind))) in Body(kind, selectedCommunity, title, content, url, imageFile)
    ensures forall f :: (f in Names(Body(kind, selectedCommunity, title, content, url, imageFile))
                         && (f.BodyField? || f.UrlField? || f.MediaField?)) ==> f == ContentField(kind)
    ensures ContentField(kind) in Names(Body(kind, selectedCommunity, title, content, url, imageFile))
    ensures kind == TextPost ==> (BodyField, Text(content)) in Body(kind, selectedCommunity, title, content, url, imageFile)
    ensures kind == LinkPost ==> (UrlField, Text(url)) in Body(kind, selectedCommunity, title, content, url, imageFile)
    ensures kind == ImagePost ==> (MediaField, File(imageFile.value)) in Body(kind, selectedCommunity, title, content, url, imageFile)
  {
    var t := [(TitleField, Text(title))];
    var c := CommunityPart(selectedCommunity);
    var ty := [(TypeField, Text(KindName(kind)))];
    var k := ContentPart(kind, content, url, imageFile);
    var p := t + c + ty + k;
    assert p == Body(kind, selectedCommunity, title, content, url, imageFile);
    BodyNames(kind, selectedCommunity, title, content, url, imageFile);
    assert p[0] == t[0];
    assert SendsCommunity(selectedCommunity) ==> p[1] == c[0];
    assert p[|t| + |c|] == ty[0];
    assert p[|t| + |c| + 1] == k[0];
  }

  /** `handleSubmit`: nothing is sent for a form that does not validate;
      otherwise the body of the trimmed title, content and link, assembled
      entry by entry. */
  method HandleSubmit(kind: PostKind, selectedCommunity: string, title: string, content: string, url: string,
                      imageFile: Option<Id>, parse: string -> ParsedUrl) returns (sent: Option<seq<(FieldName, Part)>>)
    ensures sent.Some? <==> Acceptable(kind, title, content, url, imageFile, parse)
    ensures sent.Some? ==> sent.value == Body(kind, selectedCommunity, Trim(title), Trim(content), Trim(url), imageFile)
  {
    var _, valid := ValidateForm(kind, title, content, url, imageFile, parse);
    if !valid {
      return None;
    }
    var form := [(TitleField, Text(Trim(title)))];
    if selectedCommunity != "" && selectedCommunity != "none" {
      form := form + [(CommunityField, Text(selectedCommunity))];
    }
    assert form == [(TitleField, Text(Trim(title)))] + CommunityPart(selectedCommunity);
    form := form + [(TypeField, Text(KindName(kind)))];
    ghost var prefix := form;
    if kind == TextPost {
      form := form + [(BodyField, Text(Trim(content)))];
    } else if kind == LinkPost {
      form := form + [(UrlField, Text(Trim(url)))];
    } else if kind == ImagePost && imageFile.Some? {
      form := form + [(MediaField, File(imageFile.value))];
    }
    assert form == prefix + ContentPart(kind, Trim(content), Trim(url), imageFile);
    return Some(form);
  }
}
