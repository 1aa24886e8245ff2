/**
 * The `Post` entity: its key constants, its conversions to and from a storage
 * row and a JSON object, and the table of keys a request may update. The
 * conversions build fresh values; the update setters change a Post in place.
 */
module Posts {
  import opened Wrappers
  import opened Records

  /** The column and JSON key names. */
  const IdKey: string := "id"
  const ContentKey: string := "content"
  const ImageUrlKey: string := "imageUrl"
  const LikesCountKey: string := "likesCount"

  /** The keys `makeRow` writes. */
  const RowKeys: set<string> := {ContentKey, ImageUrlKey, LikesCountKey}

  /** The field values of a post at one moment. */
  datatype PostFields = PostFields(id: Option<int>, content: string, imageUrl: string, likesCount: int)

  /** `init(content:imageUrl:)`: a post not yet stored, with no likes. */
  function NewPost(content: string, imageUrl: string): (p: PostFields)
    ensures p.id.None? && p.likesCount == 0
    ensures p.content == content && p.imageUrl == imageUrl
  {
    PostFields(None, content, imageUrl, 0)
  }

  /**
   * `init(row:)`: reads `content` and `imageUrl` as required strings and
   * `likesCount` as a required integer, failing at the first key that does not fit.
   */
  function FromRow(row: Record): (r: Result<PostFields, Error>)
    ensures r.Ok? <==>
      Lookup(row, ContentKey).VStr? && Lookup(row, ImageUrlKey).VStr? && Lookup(row, LikesCountKey).VInt?
    ensures r.Ok? ==>
      && r.value.id.None?
      && Lookup(row, ContentKey) == VStr(r.value.content)
      && Lookup(row, ImageUrlKey) == VStr(r.value.imageUrl)
      && Lookup(row, LikesCountKey) == VInt(r.value.likesCount)
    ensures Lookup(row, ContentKey).VNull? ==> r == Err(MissingKey(ContentKey))
    ensures Lookup(row, ContentKey).VInt? ==> r == Err(TypeMismatch(ContentKey))
    ensures Lookup(row, ContentKey).VStr? && Lookup(row, ImageUrlKey).VNull? ==> r == Err(MissingKey(ImageUrlKey))
    ensures Lookup(row, ContentKey).VStr? && Lookup(row, ImageUrlKey).VInt? ==> r == Err(TypeMismatch(ImageUrlKey))
    ensures Lookup(row, ContentKey).VStr? && Lookup(row, ImageUrlKey).VStr? && Lookup(row, LikesCountKey).VNull? ==>
              r == Err(MissingKey(LikesCountKey))
    ensures Lookup(row, ContentKey).VStr? && Lookup(row, ImageUrlKey).VStr? && Lookup(row, LikesCountKey).VStr? ==>
              r == Err(TypeMismatch(LikesCountKey))
  {
    var content :- GetString(row, ContentKey);
    var imageUrl :- GetString(row, ImageUrlKey);
    var likesCount :- GetInt(row, LikesCountKey);
    Ok(PostFields(None, content, imageUrl, likesCount))
  }

  /** The `set` calls of `makeRow`, in order. */
  function RowEntries(p: PostFields): seq<Entry>
  {
    [Entry(ContentKey, VStr(p.content)),
     Entry(ImageUrlKey, VStr(p.imageUrl)),
     Entry(LikesCountKey, VInt(p.likesCount))]
  }

  /** `makeRow`: writes the three stored fields, never the identifier. */
  function ToRow(p: PostFields): (row: Record)
    ensures row.Keys == RowKeys
    ensures IdKey !in row
  {
    var entries := RowEntries(p);
    assert DistinctKeys(entries);
    assert KeysOf(entries) == RowKeys by {
      assert entries[0].key == ContentKey && entries[1].key == ImageUrlKey && entries[2].key == LikesCountKey;
    }
    Build(entries)
  }

  /** The columns `prepare` declares for the posts table. */
  function Columns(): (cols: seq<Column>)
    ensures |cols| == 4 && cols[0] == IdColumn
    ensures forall i :: 1 <= i < |cols| ==> cols[i].Typed? && cols[i].kind == StringType
  {
    [IdColumn, Typed(ContentKey, StringType), Typed(ImageUrlKey, StringType), Typed(LikesCountKey, StringType)]
  }

  /**
   * `init(json:)`: a client creates a post from `content` and `imageUrl` only;
   * whatever the object holds under `id` or `likesCount` is not read.
   */
  function FromJson(json: Record): (r: Result<PostFields, Error>)
    ensures r.Ok? <==> Lookup(json, ContentKey).VStr? && Lookup(json, ImageUrlKey).VStr?
    ensures r.Ok? ==>
      && r.value.id.None? && r.value.likesCount == 0
      && Lookup(json, ContentKey) == VStr(r.value.content)
      && Lookup(json, ImageUrlKey) == VStr(r.value.imageUrl)
    ensures Lookup(json, ContentKey).VNull? ==> r == Err(MissingKey(ContentKey))
    ensures Lookup(json, ContentKey).VInt? ==> r == Err(TypeMismatch(ContentKey))
    ensures Lookup(json, ContentKey).VStr? && Lookup(json, ImageUrlKey).VNull? ==> r == Err(MissingKey(ImageUrlKey))
    ensures Lookup(json, ContentKey).VStr? && Lookup(json, ImageUrlKey).VInt? ==> r == Err(TypeMismatch(ImageUrlKey))
  {
    var content :- GetString(json, ContentKey);
    var imageUrl :- GetString(json, ImageUrlKey);
    Ok(NewPost(content, imageUrl))
  }

  /** The `set` calls of `makeJSON`, in order. */
  function JsonEntries(p: PostFields): seq<Entry>
  {
    [Entry(IdKey, FromOptInt(p.id)),
     Entry(ContentKey, VStr(p.content)),
     Entry(ImageUrlKey, VStr(p.imageUrl)),
     Entry(LikesCountKey, VInt(p.likesCount))]
  }

  /** `makeJSON`: exposes every field, the identifier included. */
  function ToJson(p: PostFields): (json: Record)
    ensures json.Keys == {IdKey, ContentKey, ImageUrlKey, LikesCountKey}
  {
    var entries := JsonEntries(p);
    assert DistinctKeys(entries);
    assert KeysOf(entries) == {IdKey, ContentKey, ImageUrlKey, LikesCountKey} by {
      assert entries[0].key == IdKey && entries[1].key == ContentKey;
      assert entries[2].key == ImageUrlKey && entries[3].key == LikesCountKey;
    }
    Build(entries)
  }

  /** A key a request may update, with the type its value must have for the setter to run. */
  datatype UpdateableKey = UpdateableKey(key: string, kind: FieldType)

  /** `updateableKeys`: a String under `content` and an Int under `likesCount`. */
  const UpdateableKeys: seq<UpdateableKey> :=
    [UpdateableKey(ContentKey, StringType), UpdateableKey(LikesCountKey, IntType)]

  /** What the setter of an updateable key does to a post given a value of the declared type. */
  function Applied(p: PostFields, k: UpdateableKey, v: Value): (r: PostFields)
    requires k in UpdateableKeys && HasType(v, k.kind)
    ensures r.id == p.id && r.imageUrl == p.imageUrl
    ensures k.key == ContentKey ==> r.content == v.s && r.likesCount == p.likesCount
    ensures k.key == LikesCountKey ==> r.likesCount == v.i && r.content == p.content
  {
    if k.key == ContentKey then p.(content := v.s) else p.(likesCount := v.i)
  }

  /** The four key constants name four different keys. */
  lemma KeysDistinct()
    ensures |{IdKey, ContentKey, ImageUrlKey, LikesCountKey}| == 4
  {
  }

  /** The values `makeRow` stores under each of its keys. */
  lemma RowValues(p: PostFields)
    ensures ToRow(p)[ContentKey] == VStr(p.content)
    ensures ToRow(p)[ImageUrlKey] == VStr(p.imageUrl)
    ensures ToRow(p)[LikesCountKey] == VInt(p.likesCount)
  {
    var entries := RowEntries(p);
    assert entries[0].key == ContentKey && entries[1].key == ImageUrlKey && entries[2].key == LikesCountKey;
  }

  /** Reading back a written row restores content, image URL and like count; the identifier is not stored. */
  lemma RowRoundTrip(p: PostFields)
    ensures FromRow(ToRow(p)) == Ok(p.(id := None))
  {
    RowValues(p);
  }

  /** The values `makeJSON` stores under each of its keys. */
  lemma JsonValues(p: PostFields)
    ensures ToJson(p)[IdKey] == FromOptInt(p.id)
    ensures ToJson(p)[ContentKey] == VStr(p.content)
    ensures ToJson(p)[ImageUrlKey] == VStr(p.imageUrl)
    ensures ToJson(p)[LikesCountKey] == VInt(p.likesCount)
  {
    var entries := JsonEntries(p);
    assert entries[0].key == IdKey && entries[1].key == ContentKey;
    assert entries[2].key == ImageUrlKey && entries[3].key == LikesCountKey;
  }

  /** Whatever a JSON object holds under `id` and `likesCount` has no effect on `init(json:)`. */
  lemma FromJsonIgnoresIdAndLikes(json: Record, id: Value, likesCount: Value)
    ensures FromJson(json[IdKey := id][LikesCountKey := likesCount]) == FromJson(json)
  {
  }

  /**
   * A post created from JSON, stored and read back, is the same post, and its
   * JSON holds the client's content and image URL, a null identifier and no likes.
   */
  lemma CreateStoreShow(json: Record)
    requires FromJson(json).Ok?
    ensures FromRow(ToRow(FromJson(json).value)) == FromJson(json)
    ensures ToJson(FromJson(json).value)[IdKey] == VNull
    ensures ToJson(FromJson(json).value)[ContentKey] == json[ContentKey]
    ensures ToJson(FromJson(json).value)[ImageUrlKey] == json[ImageUrlKey]
    ensures ToJson(FromJson(json).value)[LikesCountKey] == VInt(0)
  {
    var p := FromJson(json).value;
    RowRoundTrip(p);
    JsonValues(p);
  }

  /** A create request without an image URL fails, naming that key. */
  lemma CreateWithoutImageUrl(content: string)
    ensures FromJson(map[ContentKey := VStr(content)]) == Err(MissingKey(ImageUrlKey))
  {
  }

  /** The table declared by `prepare` has a column for the identifier and for each row key, and no other. */
  lemma ColumnsMatchRow()
    ensures ColumnNames(Columns()) == RowKeys + {IdKey}
  {
    var cols := Columns();
    assert ColumnName(cols[0]) == IdKey && ColumnName(cols[1]) == ContentKey;
    assert ColumnName(cols[2]) == ImageUrlKey && ColumnName(cols[3]) == LikesCountKey;
    assert ColumnNames(cols) == {IdKey, ContentKey, ImageUrlKey, LikesCountKey} by {
      forall k | k in ColumnNames(cols) ensures k in {IdKey, ContentKey, ImageUrlKey, LikesCountKey} {
        var i :| 0 <= i < |cols| && ColumnName(cols[i]) == k;
      }
    }
  }

  /** `prepare` declares `likesCount` as a string column, while `makeRow` stores it as an Int. */
  lemma LikesCountColumnKindDiffers(p: PostFields)
    ensures Typed(LikesCountKey, StringType) in Columns()
    ensures !HasType(ToRow(p)[LikesCountKey], StringType)
  {
    RowValues(p);
  }

  /** Only `content` and `likesCount` are updateable: never the identifier or the image URL. */
  lemma UpdateableKeyNames()
    ensures (set k | k in UpdateableKeys :: k.key) == {ContentKey, LikesCountKey}
    ensures forall k :: k in UpdateableKeys ==> k.key != IdKey && k.key != ImageUrlKey
  {
    assert UpdateableKeys[0].key == ContentKey && UpdateableKeys[1].key == LikesCountKey;
  }

  /** A post held in memory, whose fields the update setters change in place. */
  class Post {
    var id: Option<int>
    var content: string
    var imageUrl: string
    var likesCount: int

    /** The current field values. */
    function Fields(): PostFields
      reads this
    {
      PostFields(id, content, imageUrl, likesCount)
    }

    /** `init(content:imageUrl:)`. */
    constructor (content: string, imageUrl: string)
      ensures Fields() == NewPost(content, imageUrl)
    {
      this.id := None;
      this.content := content;
      this.imageUrl := imageUrl;
      this.likesCount := 0;
    }

    /** A post holding the fields produced by `FromRow` or `FromJson`. */
    constructor FromFields(f: PostFields)
      ensures Fields() == f
    {
      this.id := f.id;
      this.content := f.content;
      this.imageUrl := f.imageUrl;
      this.likesCount := f.likesCount;
    }

    /** The setter of the `content` key. */
    method SetContent(content: string)
      modifies this
      ensures Fields() == old(Fields()).(content := content)
    {
      this.content := content;
    }

    /** The setter of the `likesCount` key. */
    method SetLikesCount(likesCount: int)
      modifies this
      ensures Fields() == old(Fields()).(likesCount := likesCount)
    {
      this.likesCount := likesCount;
    }

    /**
     * Offers one updateable key of a request to this post: its setter runs
     * exactly when the request holds a value of the declared type under the key.
     */
    method UpdateKey(k: UpdateableKey, request: Record) returns (called: bool)
      requires k in UpdateableKeys
      modifies this
      ensures called <==> HasType(Lookup(request, k.key), k.kind)
      ensures called ==> k.key in request && Fields() == Applied(old(Fields()), k, request[k.key])
      ensures !called ==> Fields() == old(Fields())
      ensures id == old(id) && imageUrl == old(imageUrl)
    {
      var v := Lookup(request, k.key);
      called := HasType(v, k.kind);
      if called {
        if k.key == ContentKey {
          SetContent(v.s);
        } else {
          SetLikesCount(v.i);
        }
      }
    }
  }
}
