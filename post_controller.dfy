/**
 * Creating, editing and deleting posts (`controllers/postController.js`)
 * over the documents of `models/Post.js`: an author, a required title and
 * body, and a media URL with a media type that is `"image"` once an upload
 * succeeded and `"none"` otherwise. Only the author may edit or delete a
 * post. The image upload is a parameter: no file, a file stored under a
 * secure URL, or an upload error.
 */
module PostController {
  import opened Common

  datatype MediaType = ImageMedia | NoMedia

  datatype StoredPost = StoredPost(authorId: Id, title: string, body: string, mediaUrl: string, mediaType: MediaType)

  /** What the upload of `req.file` produced. */
  datatype Upload = NoFile | Uploaded(secureUrl: string) | UploadFailed

  /** Marks the case where the handler sends no response at all: the save
      runs in a promise nobody awaits, so its rejection never reaches the
      handler's `catch`. */
  const NoResponse: nat := 0

  /** The media fields a post ends up with: those of the upload, or the ones it had. */
  function Media(upload: Upload, url: string, kind: MediaType): (m: (string, MediaType))
    requires !upload.UploadFailed?
    ensures upload.Uploaded? ==> m == (upload.secureUrl, ImageMedia)
    ensures upload.NoFile? ==> m == (url, kind)
  {
    if upload.Uploaded? then (upload.secureUrl, ImageMedia) else (url, kind)
  }

  /** The stored documents passed `Post.js` validation: required title and body. */
  predicate ValidPost(p: StoredPost)
  {
    p.title != "" && p.body != ""
  }

  class PostStore {
    var posts: map<Id, StoredPost>

    ghost predicate Valid()
      reads this
    {
      forall id :: id in posts ==> ValidPost(posts[id])
    }

    constructor ()
      ensures Valid() && posts == map[]
    {
      posts := map[];
    }

    /** `createPost`. `newId` is the identifier Mongo assigns to the new document. */
    method CreatePost(author: Id, title: Option<string>, body: Option<string>, upload: Upload, newId: Id)
      returns (status: nat)
      requires Valid() && newId !in posts
      modifies this
      ensures Valid()
      ensures upload.UploadFailed? ==> status == 500 && posts == old(posts)
      ensures !upload.UploadFailed? && !(Truthy(title) && Truthy(body)) ==>
                status == NoResponse && posts == old(posts)
      ensures !upload.UploadFailed? && Truthy(title) && Truthy(body) ==>
                var m := Media(upload, "", NoMedia);
                status == 201 && posts == old(posts)[newId := StoredPost(author, title.value, body.value, m.0, m.1)]
    {
      if upload.UploadFailed? {
        return 500;
      }
      var mediaUrl, mediaType := "", NoMedia;
      if upload.Uploaded? {
        mediaUrl, mediaType := upload.secureUrl, ImageMedia;
      }
      // `required` on `title` and `body` rejects undefined and empty strings.
      if !Truthy(title) || !Truthy(body) {
        return NoResponse;
      }
      posts := posts[newId := StoredPost(author, title.value, body.value, mediaUrl, mediaType)];
      return 201;
    }

    /** `updatePost`: 404 for an unknown post, 403 for anyone but its author;
        a falsy title or body keeps the old one, and an upload replaces the media. */
    method UpdatePost(id: Id, user: Id, title: Option<string>, body: Option<string>, upload: Upload)
      returns (status: nat)
      requires Valid()
      modifies this
      ensures Valid()
      ensures id !in old(posts) ==> status == 404 && posts == old(posts)
      ensures id in old(posts) && old(posts)[id].authorId != user ==> status == 403 && posts == old(posts)
      ensures id in old(posts) && old(posts)[id].authorId == user && upload.UploadFailed? ==>
                status == 500 && posts == old(posts)
      ensures id in old(posts) && old(posts)[id].authorId == user && !upload.UploadFailed? ==>
                var p := old(posts)[id];
                var m := Media(upload, p.mediaUrl, p.mediaType);
                status == 200
                && posts == old(posts)[id := StoredPost(p.authorId, OrElse(title, p.title), OrElse(body, p.body), m.0, m.1)]
    {
      if id !in posts {
        return 404;
      }
      var post := posts[id];
      if post.authorId != user {
        return 403;
      }
      var mediaUrl, mediaType := post.mediaUrl, post.mediaType;
      if upload.UploadFailed? {
        return 500;
      } else if upload.Uploaded? {
        mediaUrl, mediaType := upload.secureUrl, ImageMedia;
      }
      post := post.(title := if Truthy(title) then title.value else post.title);
      post := post.(body := if Truthy(body) then body.value else post.body);
      post := post.(mediaUrl := mediaUrl, mediaType := mediaType);
      posts := posts[id := post];
      return 200;
    }

    /** `deletePost`: 404 for an unknown post, 403 for anyone but its author. */
    method DeletePost(id: Id, user: Id) returns (status: nat)
      requires Valid()
      modifies this
      ensures Valid()
      ensures id !in old(posts) ==> status == 404 && posts == old(posts)
      ensures id in old(posts) && old(posts)[id].authorId != user ==> status == 403 && posts == old(posts)
      ensures id in old(posts) && old(posts)[id].authorId == user ==> status == 200 && posts == old(posts) - {id}
    {
      if id !in posts {
        return 404;
      }
      if posts[id].authorId != user {
        return 403;
      }
      posts := posts - {id};
      return 200;
    }
  }
}
