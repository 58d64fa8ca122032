# CRAFTIQ AI creation pipeline, modelled in Dafny

This project models the request pipeline of `server/controllers/aiController.js`.
That file holds the three handlers behind `POST /api/ai/generate-article`,
`/generate-blog-title` and `/generate-image`:

- **Quota gate.** The two text generators refuse a request when
  `plan !== 'premium' && free_usage >= 10`. The refusal is an ordinary JSON reply
  (status 200) with `success: false`.
- **Text generation.** Otherwise the handler awaits a chat completion, INSERTs one
  `creations` row, and (for a non-premium plan only) writes `free_usage + 1` back to
  the identity provider's private metadata.
- **Image generation.** There is no quota gate. The handler checks that the Clipdrop
  key is set, asks Clipdrop for an image, and passes through any status other than
  200. It then sniffs the MIME type from the leading bytes, builds a
  `data:<mime>;base64,<…>` URI, uploads it to the asset host and INSERTs a row
  holding the returned URL.
- **Errors.** Any thrown error becomes a 500 reply with `success: false` and the
  error's message.

Files:

- `outcomes.dfy`: `Option` and `Outcome` (an awaited call either returns a value or
  throws a message).
- `base64.dfy`: base64 encoding with the alphabet of section 4 of RFC 4648 and `=`
  padding. It also holds a strict decoder, with both round trips proved.
- `image_format.dfy`: the magic-number classifier, the data-URI builder and a reader
  for `;base64` data URIs (RFC 2397), with both round trips proved.
- `quota.dfy`: the gate predicate, and the defaults the auth middleware applies to a
  missing plan or counter.
- `records.dfy`: the external state as one value. This is the `creations` table,
  the plan and `free_usage` metadata, and the ordered log of awaited calls with what
  each yielded. `Perform` is what one awaited call does to it. `WellOrdered` says
  which call may directly follow which.
- `pipeline.dfy`: each handler as a function from the state before a request to the
  reply and the state after it. The lemmas cover the gate, the row, the counter, the
  ordering of calls and a whole run of sequential requests.
- `ai_controller.dfy`: the class `Backend`, whose fields are the table, the metadata
  and the call log. Its handler methods await the calls one `Perform` at a time, in
  the source's order. Each method is proved to have exactly the effect of its step
  function and to keep the call log well ordered.

The outside world enters as parameters. Each awaited service call takes an
`Outcome` parameter that says what the service yields if the handler gets that far.
Those services are the chat completion, Clipdrop, the Cloudinary upload, the SQL
INSERT and the Clerk metadata write. The environment variable `CLIPDROP_API_KEY` is
an `Option<string>`. The UTF-8 decoding of Clipdrop's error body is a function
parameter.

A failed usage write is not swallowed: `updateUserMetadata` is awaited inside the
`try`, so its throw gives a 500 reply after the row has already been stored, and the
counter stays unchanged. `Pipeline.TextStep` states this case explicitly.

## Model

| member | source | states |
|---|---|---|
| Quota.PlanOf | server/middlewares/auth.js:17 | A missing or empty plan reads as `'free'`; otherwise the stored plan is used |
| Quota.FreeUsageOf | server/middlewares/auth.js:18 | A missing counter reads as 0; otherwise the stored value is used |
| Quota.LimitReached | server/controllers/aiController.js:24 | A premium plan is never refused; any other plan is refused exactly when its counter is 10 or more |
| Quota.NewAccountMayGenerate | server/middlewares/auth.js:17-18 | A user with no metadata passes the quota gate |
| Base64.Encode | server/controllers/aiController.js:185 | Padded base64 output is 4·⌈n/3⌉ characters long and never holds a comma |
| Base64.EncodeTestVectors | server/controllers/aiController.js:185 | The encoder gives the seven test vectors of section 10 of RFC 4648 (`""` to `"Zm9vYmFy"`), which fixes the alphabet, the bit order and the padding independently of the decoder |
| Base64.Index | server/controllers/aiController.js:185 | Every character that decodes to a 6-bit value is the alphabet symbol for that value; padding decodes to nothing |
| Base64.DecodeEncode | server/controllers/aiController.js:185 | Decoding the encoding of any byte buffer gives back that buffer |
| Base64.EncodeDecode | server/controllers/aiController.js:185 | Any string the strict decoder accepts is exactly the encoding of the bytes it decodes to |
| ImageFormat.DetectMime | server/controllers/aiController.js:169-178 | Total, with two values: `image/jpeg` iff the buffer has at least 3 bytes and they are `FF D8 FF`, otherwise `image/png`. The PNG signature and buffers shorter than 3 bytes both give `image/png` |
| ImageFormat.DataUri | server/controllers/aiController.js:185 | The URI opens with `data:` followed by the media type, carries a comma-free header when the type has none, and is exactly as long as `data:`, the type, `;base64`, the comma and 4·⌈n/3⌉ payload characters |
| ImageFormat.ParseDataUriOfDataUri | server/controllers/aiController.js:185 | For a media type without a comma, reading back `data:<mime>;base64,<b64>` gives that media type and the original bytes |
| ImageFormat.DataUriOfParseDataUri | server/controllers/aiController.js:185 | Every data URI the reader accepts is exactly the builder's output for the parts it reads |
| ImageFormat.UploadedImageRoundTrip | server/controllers/aiController.js:164-190 | The uploaded URI carries the detected type, and its payload decodes to the exact bytes Clipdrop returned |
| Records.World.Perform | server/controllers/aiController.js:37-43 | An awaited call is logged. An INSERT that returned appends its row at the end of the table. A metadata write that returned sets that user's counter. A call that threw changes only the log |
| Records.ReplayAppendsInserted | server/controllers/aiController.js:37-38 | Replaying any call log appends to the table exactly the rows of the INSERTs that returned, in order |
| Pipeline.TextStep | server/controllers/aiController.js:17-93 | The reply is the 200 "Limit reached. Upgrade to continue!" iff the plan is not premium and usage ≥ 10; a refused request changes nothing and makes no call. The chat completion is the first call after the gate. At most one row is added, at the end of the table, and it is added iff the completion and the INSERT both returned. On success the status is 200 and the row holds the returned content. A premium user's counter is never written. Otherwise the only write is `usage + 1`, and it is made on every success. A failure leaves the counter unchanged. The only failure that follows a stored row is a throw from the usage write. Past the gate, a throw from the completion, the INSERT or the usage write is answered with a 500 carrying its message, and when none throws the reply is a 200 with the generated content |
| Pipeline.ArticleStep | server/controllers/aiController.js:17-52 | Past the gate, the completion is requested with the body's `length` as its ceiling, and with no ceiling when the body has no `length` (the article page posts only `{ prompt }`, client/src/pages/WriteArticle.jsx:31). A success stores one `'article'` row with no publish value, holding the reply's content |
| Pipeline.BlogTitleStep | server/controllers/aiController.js:58-93 | Past the gate, the completion is requested with a ceiling of 200. A success stores one `'blog-title'` row with no publish value, holding the reply's content |
| Pipeline.HasKey | server/controllers/aiController.js:139-140 | A missing or empty `CLIPDROP_API_KEY` counts as absent; any non-empty value counts as present |
| Pipeline.PublishFlag | server/controllers/aiController.js:198-199 | A given `publish` value is stored as is; a missing one is stored as false |
| Pipeline.ImageStep | server/controllers/aiController.js:131-207 | Never reads or writes the counter. A missing or empty key gives a 500 before any call. A Clipdrop status other than 200 is passed through with message "AI Service Error: " + body text, with no upload and no INSERT. A row is stored iff the reply is a success, and it is `'image'` with the uploaded URL as content. Its publish is the request's value, or false when there is none. The uploaded string is the data URI of the detected type and the returned bytes. With the key set, a 200 from Clipdrop whose upload and INSERT return is answered with a 200 carrying the uploaded URL, and a throw from Clipdrop, the upload or the INSERT is answered with a 500 carrying its message |
| Pipeline.TextStepReplaysLog | server/controllers/aiController.js:28-46 | A text request changes the state exactly by replaying the calls it logs |
| Pipeline.TextStepKeepsOrder | server/controllers/aiController.js:28-46 | In a text request, every INSERT directly follows a completion that returned its content, and every usage write directly follows that user's successful INSERT |
| Pipeline.ImageStepReplaysLog | server/controllers/aiController.js:148-201 | An image request changes the state exactly by replaying the calls it logs |
| Pipeline.ImageStepKeepsOrder | server/controllers/aiController.js:148-201 | In an image request, the upload follows a 200 from Clipdrop and sends the data URI of those bytes, and the INSERT follows an upload that returned its URL |
| Pipeline.FreeQuotaHolds | server/controllers/aiController.js:24-44 | Requests are served one at a time, with plan and usage read fresh each time. A non-premium user's counter then ends at its start value plus the number of successes, and it never passes 10 if it started at 10 or below |
| Pipeline.PremiumUsageUntouched | server/controllers/aiController.js:40-44 | No sequence of text requests changes a premium user's counter |
| Pipeline.TenthArticleIsTheLast | server/controllers/aiController.js:24-46 | A free user at 9 gets the article, one `'article'` row holding it, and usage 10. The next request is refused and changes nothing |
| AiController.Backend.Perform | server/controllers/aiController.js:37-43 | One awaited call changes the fields exactly as `World.Perform` says. An upload, INSERT or usage write is accepted only right after the call that allows it, so the log stays well ordered |
| AiController.Backend.GenerateText | server/controllers/aiController.js:17-93 | The gate, completion, INSERT and usage-write sequence has exactly `TextStep`'s reply and new state, and it keeps the log well ordered |
| AiController.Backend.GenerateArticle | server/controllers/aiController.js:17-52 | Its reply and new state are exactly those of `ArticleStep`, for a body with or without `length` |
| AiController.Backend.GenerateBlogTitle | server/controllers/aiController.js:58-93 | Its reply and new state are exactly those of `BlogTitleStep` |
| AiController.Backend.GenerateImage | server/controllers/aiController.js:131-207 | Its reply and new state are exactly those of `ImageStep`, and it keeps the log well ordered |
| AiController.FreeTierScenario | server/controllers/aiController.js:24-46 | On a fresh backend with a free user at 9, the first article request (posted without `length`, as the article page sends it) succeeds and the second is refused with the limit message |

## Left out

- `streamUpload` (server/controllers/aiController.js:109-123) is defined but never called.
- The auth middleware is modelled only through its two defaults. Its hard-coded user
  id, its Clerk lookup and its 401 path are not part of this model, so each handler
  takes the user id, plan and counter as the request carries them.
- The model name, `temperature: 0.7`, the Clipdrop headers and the upload options
  `{ folder: "ai-generated", resource_type: "image" }` (aiController.js:190-193) are
  not modelled. Of the provider parameters, only the prompt and the token ceiling are
  recorded; of the upload, only the data URI.
- The check-then-act race on `free_usage` between concurrent requests is not
  modelled. Requests are served one at a time.
- JavaScript's dynamic values are not modelled. `length` is an optional integer
  (absent, it sends no ceiling), `publish` an optional boolean and `free_usage` an
  integer.
- Each handler destructures `req.body` before its gate or key check
  (aiController.js:20, 61, 134). A request without a parsed body throws there, before
  any call, and answers a 500 even when the limit is reached or the key is missing.
  This is not modelled: the model assumes a body. A TypeError after an await, such as
  one from an empty `choices` array, is covered as a thrown outcome of that call.
- The console logging is not modelled.
- Node's UTF-8 decoding of the Clipdrop error body is a function parameter, not a
  model of UTF-8.
- A status Express would reject in `res.status` is not modelled. Clipdrop's reply
  status is taken as given.
- The background-removal, object-removal and resume-review endpoints do not appear
  in `aiController.js` and are not part of this model. Nor is a quota check on image
  generation, which that file does not perform.
- `Base64.Index` and `Base64.Decode` are a strict RFC 4648 decoder, written as the
  partner of the encoder. The source only encodes.
