# fastapi-firebase: a Dafny model of the blog log and the identity gates

The service forwards account operations to Firebase and keeps a blog in a
Google Cloud Storage bucket. Two pieces of its own logic are modelled here.

The first is the blog log. One object, `posts`, holds a JSON array of post
records. `read_blob` returns the whole array, or an empty list when the object
does not exist. `read_append_blob` reads the array, appends one record in memory
and uploads the whole array again. `blog_send_post` builds a record from the
caller's verified claims and the request body, appends it and echoes it.
`blog_get_user_posts` returns the posts it attributes to the caller.

The second is the set of single-expression tests that drive control flow:

- The success test on an identity-provider reply is `"20" in str(status_code)`.
- The admin test is `"admin" in profile`.
- The owner filter is `post['user_id'] in user["user_id"]`.

All three are substring tests on strings, not equality or range tests, and the
model keeps them that way.

Modules:

- `Text` (text.dfy): Python's `in` on two strings, `Contains`, proved equal to
  "there is a position where the needle occurs".
- `Decimal` (decimal.dfy): `str(n)` for a non-negative integer, with its inverse.
- `BlobLog` (bloblog.dfy): the bucket as a class whose field maps object names
  to sequences of records, with `read_blob`, `upload_from_string` and
  `read_append_blob` as methods. A pure function, `Appended`, states the bucket
  after one append.
- `Identity` (identity.dfy): claim sets, the provider-call gate and the admin gate.
- `Blog` (blog.dfy): post records, post construction, the owner filter with an
  exact-ownership filter for comparison, and the two blog handlers.

The gate does not test for the 2xx class. On three-digit codes it passes exactly
200 to 209 and every code ending in "20", so 420, 520 and 120 pass, and 210 and
226 fail. The owner filter does not establish ownership either. A caller is
shown every post whose `user_id` is a substring of their own. That always
includes their own posts. It also includes posts whose id is empty, and posts by
any user whose id is a part of theirs. The model proves both behaviours as the
code has them. For comparison it also proves how they relate to the 2xx class
and to exact equality.

## Model

| member | source | states |
|---|---|---|
| `Text.Contains` | app/main.py:182 | Python's `needle in hay` holds exactly when the needle occurs at some position of the haystack; the empty needle is in every string, and a longer needle is in none |
| `Decimal.DecimalString` | app/main.py:95 | `str(status_code)` is a non-empty string of decimal digits with no leading zero, one character long exactly for codes below 10 |
| `Decimal.ParseRendered` | app/main.py:95 | the rendering loses nothing: parsing `str(n)` gives back `n` |
| `Identity.ProviderCallSucceeded` | app/main.py:114 | the gate `"20" in str(status_code)` holds iff "20" occurs at some position of the decimal rendering of the code; no code below 20 passes |
| `Identity.Get` | app/main.py:163-164 | Python's `d[key]`: the stored value when the key is present, otherwise a `KeyError` naming that key |
| `Identity.GateOnThreeDigits` | app/main.py:95 | on a three-digit status code the provider-call gate passes exactly 200 to 209 and the codes ending in 20 |
| `Identity.GateExamples` | app/main.py:114 | 200, 201 and 204 pass the gate; 210, 404 and 500 fail it; 420 and 120 pass it |
| `Identity.GateVersusSuccessClass` | app/main.py:95 | against the 2xx class: 200 to 209 pass both; 210 to 299 other than 220 are 2xx but fail the gate; outside 2xx the gate passes exactly the codes ending in 20 |
| `Identity.ProviderGate` | app/main.py:95-98 | a provider reply proceeds iff its status passes the gate; otherwise the caller gets HTTP 403 with that call site's message |
| `Identity.ProviderGateSites` | app/main.py:114-117 | the password check and the custom-token exchange accept the same statuses; a 404 password check is a 403 with "wrong login or password."; a 420 token exchange proceeds |
| `Identity.PoliteIfYouAreAdmin` | app/main.py:67-74 | an empty claim set is an invalid token; a claim set without "profile" is a KeyError; otherwise the caller is welcomed iff "admin" occurs in the profile claim, and told to leave iff it does not |
| `Identity.IsAdminProfile` | app/main.py:71 | the admin test `"admin" in profile` holds iff "admin" occurs at some position of the profile; no profile shorter than five characters passes |
| `Identity.DefaultClaimsNotAdmin` | app/main.py:36 | the claims `{"profile": "user"}` minted into every token never pass the admin test |
| `Identity.AdminTestIsContainment` | app/main.py:71 | "admin", "superadmin", "administrator" and "not-an-admin" pass the admin test; "Admin" and "user" do not |
| `BlobLog.Stored` | app/main.py:193-198 | a key with no object reads as the empty log |
| `BlobLog.Appended` | app/main.py:184-190 | after an append the key exists and its log is the old log (empty if absent) followed by the record: one longer, every earlier record unchanged in its place; every other key reads as before |
| `BlobLog.AppendTwiceFromAbsent` | app/main.py:184-190 | appending R1 then R2 to a key with no object leaves exactly `[R1, R2]` |
| `BlobLog.AppendedAllLog` | app/main.py:189 | a run of appends leaves the old log followed by the appended records in the order they were appended, and leaves every other key unchanged |
| `BlobLog.Bucket.ReadBlob` | app/main.py:193-198 | returns the stored log, or the empty log when the object is absent, and an absent handle exactly when there is no object under the key |
| `BlobLog.Bucket.UploadFromString` | app/main.py:190 | the named object is replaced whole by the new content and nothing else changes |
| `BlobLog.Bucket.ReadAppendBlob` | app/main.py:184-190 | the bucket becomes `Appended(old bucket, key, record)`; the fresh-handle branch for an empty log writes the same key |
| `Blog.HasError` | app/main.py:159 | `user.get("error", "")` is truthy only when the claim set holds a non-empty "error" entry, so never for an empty claim set |
| `Blog.RefusedWhen` | app/main.py:158-160 | a blog handler returns an error body exactly when the verified claim set is empty or itself carries a non-empty "error" entry |
| `Blog.UserInfo` | app/main.py:77-85 | an empty verified claim set becomes an error body "JWT token is not valid"; any other claim set is the caller |
| `Blog.MakePost` | app/main.py:162-167 | the record takes user_id and email from the claims and title and text from the body; it is built iff both claims exist, and a KeyError names user_id first |
| `Blog.OwnerFilter` | app/main.py:182 | the result is no longer than the log, and every returned post is in the log and has a user_id that is a substring of the caller's |
| `Blog.FilterIsSubsequence` | app/main.py:182 | the result is an order-preserving subsequence of the log |
| `Blog.FilterComplete` | app/main.py:182 | every post of the log whose user_id occurs in the caller's user_id is returned |
| `Blog.FilterMembership` | app/main.py:182 | a post is returned iff it is in the log and its user_id is a substring of the caller's |
| `Blog.OwnPostsIncluded` | app/main.py:182 | every post whose user_id equals the caller's is returned |
| `Blog.EmptyIdSeenByAll` | app/main.py:182 | a post with an empty user_id is returned to every caller |
| `Blog.FilterShowsOthersPosts` | app/main.py:182 | the filter does not guarantee ownership: caller "abc" is shown a post by "ab" |
| `Blog.FilterMonotone` | app/main.py:182 | a caller whose id contains another caller's id is shown every post that caller is shown |
| `Blog.FilterAppend` | app/main.py:182 | filtering a concatenated log is concatenating the filtered parts |
| `Blog.ExactOwnerFilter` | app/main.py:182 | exact ownership, for comparison: every post kept is in the log and has exactly the caller's user_id |
| `Blog.ExactWithinOwnerFilter` | app/main.py:182 | the posts exact ownership keeps are an order-preserving subsequence of what the source's filter returns |
| `Blog.FiltersAgree` | app/main.py:182 | the source's filter and exact ownership return the same posts when no stored user_id is a proper substring of the caller's |
| `Blog.SendPost` | app/main.py:153-169 | an error body is returned unchanged and a missing claim is a KeyError, both with the bucket untouched; otherwise the built record is appended under "posts" and echoed |
| `Blog.GetUserPosts` | app/main.py:172-182 | an error body is returned unchanged; with a user_id claim the reply is the owner filter of the "posts" log; without one, an empty log still lists `[]` and a non-empty one is a KeyError |
| `Blog.SentPostIsListed` | app/main.py:162-182 | after a post is sent, listing with the same claims gives the earlier listing followed by the new post |

## Left out

- Firebase Admin SDK calls (`auth.create_user`, `create_custom_token`, `verify_id_token`, `update_user`): their behaviour is in a library. The verified claim set is a parameter of the handlers.
- The HTTP calls to the identity endpoints (`requests.post`): network I/O. Only the status code of the reply is a parameter, given to `ProviderGate`. The JSON reply is not modelled.
- `time.sleep(3)` after a failed provider call: timing only, with no effect on the reply.
- Startup (environment variables, `sys.exit`, client and bucket construction), FastAPI routing and `HTTPBearer`. A raised `HTTPException` is modelled as the `Forbidden` reply.
- The `return {"error": ...}` lines after each `raise`: unreachable.
- The `response.get("error")` checks on the reply of `sign_in_with_custom_token` (app/main.py:64, app/main.py:79): a reply that passes the gate reaches them, and one whose JSON holds a truthy "error" would be returned as is. The provider's JSON reply is not modelled, so this path is not either.
- The signup handler (`create_user`): account creation and token minting are SDK calls, and an `EmailAlreadyExistsError` becomes an HTTP 409. Neither is modelled.
- The signin and password-change handlers: each is SDK calls composed with the provider-call gate, and only the gate is modelled.
- `change_user_password` calls `check_user_token` (app/main.py:144), which is defined nowhere. Python raises a `NameError` after the password has already been changed. This defect is not modelled.
- JSON encoding and decoding: an object holds its decoded records. Malformed object content and storage-service errors are not modelled.
- The lost update between two concurrent `read_append_blob` calls: concurrency, outside a sequential model. Only the sequential read-modify-write is modelled.
- Claim values are modelled as strings. A claim holding another JSON type is not modelled, where `in` would mean list membership or key lookup.
- Strings are sequences of characters, and `in` compares characters exactly. No Unicode normalisation is modelled.
- app/model.py: schema declarations whose validation lives in pydantic.
- `Identity.GateOnThreeDigits`: characterises the gate only for three-digit codes, which is every HTTP status code. Codes of other lengths are covered only by the general definition.
