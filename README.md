# Record mapping of the image server's `User` and `Post` models

This project models the record-mapping layer of a small Vapor REST backend. It has two entity types, `User` and `Post`. Each one is created by an initialiser, written to a storage row (`makeRow`) and read back (`init(row:)`), and written to a client JSON object (`makeJSON`) and read from one (`init(json:)`). A `Post` can also be changed in place through its table of updateable keys. The model states which keys each direction reads or writes, which fields get defaults, what a round trip keeps, and what an update may touch.

Files:

- `wrappers.dfy`: module `Wrappers`, with `Option` and a failure-compatible `Result`.
- `records.dfy`: module `Records`. A storage row and a JSON object are both a `map<string, Value>` with `Value = VStr | VInt | VNull`. This module has:
  - `SetAll`/`Build`, which model a fresh container filled by a fixed sequence of `set` calls;
  - the typed `get` calls;
  - the `Column` description used by `prepare`.
- `user.dfy`: module `Users`, the `User` datatype and its conversions. No operation changes an existing user, so a user is a value.
- `post.dfy`: module `Posts`. The key constants, the conversions over `PostFields` (the values of a post's fields), the `updateableKeys` table, and a class `Post` whose setter methods change `content` and `likesCount` in place.

Modelling choices:

- A typed `get` reads an absent key as null.
  - A non-optional `String`/`Int` fails with `MissingKey` on null and with `TypeMismatch` on a value of the other scalar type.
  - An optional value reads null as `nil`.
- `set` of a `nil` optional stores null, so the key is still written.
- Identifiers are modelled as integers.
- `init(row:)` leaves `id` unset. The identifier of a stored entity is attached by the persistence layer, outside these files.
- The source checks required creation fields for presence and type only. A present but empty `content` or `imageUrl` is accepted. The model follows the code here.
- `User` has no updateable keys in the source, so only `Post` has an update table.
- `prepare` declares `likesCount` as a string column (Sources/App/Models/Post.swift:63), but `makeRow` stores an Int (Sources/App/Models/Post.swift:48). `Posts.LikesCountColumnKindDiffers` states this mismatch. The storage library's coercion between the two is not modelled.

## Model

| member | source | states |
|---|---|---|
| Records.SetAll | Sources/App/Models/User.swift:56-63 | filling a row by `set` calls yields exactly the old keys plus the written ones; unwritten keys keep their values and the last write of a key wins |
| Records.Build | Sources/App/Models/Post.swift:89-94 | a container built from `set` calls on distinct keys holds exactly those keys, each with the value written |
| Records.GetString | Sources/App/Models/User.swift:46-47 | a required String `get` succeeds exactly when a string is stored under the key, and returns it; a null or absent key is a missing-key error, an Int a type mismatch |
| Records.GetInt | Sources/App/Models/Post.swift:40 | a required Int `get` succeeds exactly when an Int is stored under the key, and returns it; null or absent is missing, a string a type mismatch |
| Records.GetOptString | Sources/App/Models/User.swift:48-49 | an optional String `get` fails only on an Int, and otherwise returns the optional whose encoding is the stored value |
| Records.GetOptInt | Sources/App/Models/User.swift:101 | an optional identifier `get` fails only on a string, and otherwise returns the optional whose encoding is the stored value |
| Records.FromOptString | Sources/App/Models/User.swift:59-60 | a `nil` optional string is written as null, and only `nil` is |
| Records.FromOptInt | Sources/App/Models/Post.swift:90 | a `nil` identifier is written as null, and only `nil` is |
| Users.NewUser | Sources/App/Models/User.swift:33-40 | a new user carries the given name, email, password and image URL and has no identifier |
| Users.NewUserDefaults | Sources/App/Models/User.swift:33 | when they are not given, the password is nil and the image URL is the empty string |
| Users.FromRow | Sources/App/Models/User.swift:45-52 | reading a row succeeds exactly when name and email are strings and password and imageUrl are strings or null; each field equals the row's value under its key; otherwise it fails at the first bad key in reading order (name, email, password, imageUrl): a missing-key error for an absent name or email, a type mismatch for a value of the wrong type |
| Users.ToRow | Sources/App/Models/User.swift:55-64 | the row holds exactly the keys name, email, password and imageUrl, and never id |
| Users.RowValues | Sources/App/Models/User.swift:57-60 | each row key holds the matching field, with a nil optional stored as null |
| Users.RowRoundTrip | Sources/App/Models/User.swift:45-64 | reading back a written row gives the same name, email, password and image URL |
| Users.FromJson | Sources/App/Models/User.swift:96-102 | reading JSON succeeds exactly when name and email are strings and id is not a string; name, email and id come from the object, the password is always nil and the image URL always empty; otherwise it fails at the first bad key in reading order (name, email, id), as missing or as a type mismatch |
| Users.ToJson | Sources/App/Models/User.swift:104-110 | the JSON holds exactly id, name and email, and never password or imageUrl |
| Users.JsonValues | Sources/App/Models/User.swift:106-108 | each JSON key holds the matching field, with a nil identifier as null |
| Users.JsonRoundTrip | Sources/App/Models/User.swift:96-110 | reading back a written JSON object gives the same id, name and email, no password and an empty image URL |
| Users.FromJsonIgnoresPasswordAndImage | Sources/App/Models/User.swift:96-102 | what a JSON object holds under password and imageUrl never changes the user read from it |
| Users.Columns | Sources/App/Models/User.swift:72-77 | the column list `prepare` declares: the identifier first, then four columns all declared as strings |
| Users.ColumnsMatchRow | Sources/App/Models/User.swift:71-81 | the columns declared by `prepare` are exactly the row keys plus id |
| Posts.NewPost | Sources/App/Models/Post.swift:17-31 | a new post carries the given content and image URL, has no identifier and zero likes |
| Posts.IdKey | Sources/App/Models/Post.swift:22 | declared data: the identifier key, `id` |
| Posts.ContentKey | Sources/App/Models/Post.swift:23 | declared data: the content key, `content` |
| Posts.ImageUrlKey | Sources/App/Models/Post.swift:24 | declared data: the image URL key, `imageUrl` |
| Posts.LikesCountKey | Sources/App/Models/Post.swift:25 | declared data: the like count key, `likesCount` |
| Posts.KeysDistinct | Sources/App/Models/Post.swift:22-25 | the four key constants are pairwise distinct |
| Posts.FromRow | Sources/App/Models/Post.swift:37-41 | reading a row succeeds exactly when content and imageUrl are strings and likesCount is an Int; each field equals the row's value under its key; otherwise it fails at the first bad key in reading order (content, imageUrl, likesCount), with a missing-key error for null or absent and a type mismatch for the other scalar |
| Posts.ToRow | Sources/App/Models/Post.swift:44-50 | the row holds exactly content, imageUrl and likesCount, and never id |
| Posts.RowValues | Sources/App/Models/Post.swift:46-48 | each row key holds the matching field |
| Posts.RowRoundTrip | Sources/App/Models/Post.swift:37-50 | reading back a written row gives the same content, image URL and like count |
| Posts.FromJson | Sources/App/Models/Post.swift:81-86 | reading JSON succeeds exactly when content and imageUrl are strings; the post has those values, no identifier and zero likes; an absent content, or an absent image URL after a good content, fails with a missing-key error naming it, and a value of the wrong type with a type mismatch |
| Posts.ToJson | Sources/App/Models/Post.swift:88-95 | the JSON holds exactly id, content, imageUrl and likesCount |
| Posts.JsonValues | Sources/App/Models/Post.swift:90-93 | each JSON key holds the matching field value, with a nil identifier as null |
| Posts.FromJsonIgnoresIdAndLikes | Sources/App/Models/Post.swift:81-86 | what a JSON object holds under id and likesCount never changes the post read from it |
| Posts.CreateStoreShow | Sources/App/Models/Post.swift:37-95 | a post created from JSON survives a row round trip, and its JSON echoes the client's content and image URL with a null id and zero likes |
| Posts.CreateWithoutImageUrl | Sources/App/Models/Post.swift:81-86 | a create request with content but no image URL fails with a missing imageUrl |
| Posts.Columns | Sources/App/Models/Post.swift:59-63 | the column list `prepare` declares: the identifier first, then three columns all declared as strings |
| Posts.ColumnsMatchRow | Sources/App/Models/Post.swift:58-64 | the columns declared by `prepare` are exactly the row keys plus id |
| Posts.LikesCountColumnKindDiffers | Sources/App/Models/Post.swift:44-64 | `prepare` declares likesCount as a string column while `makeRow` stores it as an Int |
| Posts.UpdateableKeys | Sources/App/Models/Post.swift:111-121 | declared data: the updateable-key table, a String under `content` and an Int under `likesCount`, in that order |
| Posts.UpdateableKeyNames | Sources/App/Models/Post.swift:111-121 | the updateable keys are exactly content and likesCount, so neither id nor imageUrl is ever updateable |
| Posts.Applied | Sources/App/Models/Post.swift:115-119 | a setter never changes id or imageUrl; the content setter changes only content, the likesCount setter only likesCount |
| Posts.Post.constructor | Sources/App/Models/Post.swift:28-31 | an object built from content and image URL holds a new post with zero likes |
| Posts.Post.FromFields | Sources/App/Models/Post.swift:37-41 | an object built from read fields holds exactly those fields |
| Posts.Post.SetContent | Sources/App/Models/Post.swift:115-116 | sets content in place and leaves every other field as it was |
| Posts.Post.SetLikesCount | Sources/App/Models/Post.swift:117-118 | sets likesCount in place and leaves every other field as it was |
| Posts.Post.UpdateKey | Sources/App/Models/Post.swift:109-121 | the setter of an updateable key runs exactly when the request holds a value of the declared type under that key; otherwise the post is unchanged; id and imageUrl never change |

## Left out

- Sources/App/Routes.swift: route wiring, a hash call and request-description echoes. It is framework glue with no mapping logic.
- The `Updateable` driver that walks `updateableKeys` for a request is in the Vapor library and not part of this model. So the model does not say:
  - what happens to unknown keys;
  - whether a type mismatch raises an error;
  - whether a request's keys are applied all-or-nothing.
- Posts.Post.UpdateKey: only states when the setter runs. When the value has the wrong type it leaves the post unchanged and does not model any error the driver may raise.
- Password verification, the file-private verifier global (Sources/App/Models/User.swift:127-135), token authentication and `Request.user()`: these call an authentication library and use global state.
- `User.posts()` (Sources/App/Models/User.swift:155-157) is a persistence query.
- The `database.create`/`delete` side effects of `prepare`/`revert` are persistence I/O. Only the declared column lists are modelled, as data.
- The Row/JSON library's numeric and string coercions are not modelled. This includes reading a string-typed `likesCount` column back as an Int.
- Records.GetOptInt, Users.FromJson: identifiers are typed as integers, so it rejects a string `id` (for example `{"name":"a","email":"b","id":"7"}`) that the source's `Identifier` would accept.
- The `storage` property and the identifier the persistence layer attaches after `init(row:)` are not modelled.
- The `ContentType` enum (Sources/App/Models/Post.swift:5-9) is declared but never used.
