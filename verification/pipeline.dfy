/**
  What one request to `generateArticle`, `generateBlogTitle` or `generateImage`
  does, as a function from the external state before it to the JSON response and the
  state after it. The outcomes of the awaited calls are parameters: each says what
  the service would yield if the handler reached that call.
*/
module Pipeline {
  import opened Outcomes
  import opened Base64
  import opened Quota
  import opened ImageFormat
  import opened Records

  /** The JSON body `{success, content}` or `{success, message}` with its HTTP status. */
  datatype Response = Success(status: int, content: string) | Failure(status: int, message: string)

  datatype Served = Served(response: Response, after: World)

  /** The ceiling `generateBlogTitle` passes as `max_completion_tokens`. */
  const TitleTokens := 200

  const KeyMissingMessage := "Server Error: CLIPDROP_API_KEY is missing."
  const ServicePrefix := "AI Service Error: "

  /** The creation row a text generator stores for `content`. */
  function TextRow(kind: Kind, userId: UserId, prompt: string, content: string): Creation
  {
    Creation(userId, prompt, content, kind, None)
  }

  /**
    The shared body of the two text generators: the quota gate, the chat completion,
    the INSERT, then (non-premium only) the usage write of `freeUsage + 1`; any
    thrown error becomes a 500 with its message.
  */
  function TextStep(w: World, kind: Kind, userId: UserId, prompt: string, maxTokens: Option<int>,
                    plan: string, freeUsage: int,
                    reply: Outcome<string>, insertAck: Outcome<()>, usageAck: Outcome<()>): (out: Served)
    ensures out.response == Failure(200, LimitMessage) <==> LimitReached(plan, freeUsage)
    ensures LimitReached(plan, freeUsage) ==> out.after == w
    ensures out.after.plans == w.plans
    // the chat completion, with the caller's ceiling, is the first thing awaited past the gate
    ensures !LimitReached(plan, freeUsage) ==>
              |out.after.calls| > |w.calls| && out.after.calls[|w.calls|] == ChatCall(ChatRequest(prompt, maxTokens), reply)
    // at most one row, and only at the end of the table
    ensures out.after.creations == w.creations
         || (reply.Returned? && out.after.creations == w.creations + [TextRow(kind, userId, prompt, reply.value)])
    ensures out.after.creations != w.creations <==>
              !LimitReached(plan, freeUsage) && reply.Returned? && insertAck.Returned?
    ensures out.response.Success? ==>
              out.response.status == 200
              && out.after.creations == w.creations + [TextRow(kind, userId, prompt, out.response.content)]
    // the counter is written only for a non-premium account, and only to freeUsage + 1
    ensures plan == Premium ==> out.after.freeUsage == w.freeUsage
    ensures out.after.freeUsage == w.freeUsage || out.after.freeUsage == w.freeUsage[userId := freeUsage + 1]
    ensures out.response.Success? && plan != Premium ==> out.after.freeUsage == w.freeUsage[userId := freeUsage + 1]
    ensures out.response.Failure? ==> out.after.freeUsage == w.freeUsage
    // a failure after the row was stored comes only from the usage write
    ensures out.response.Failure? && out.after.creations != w.creations ==>
              plan != Premium && usageAck.Threw? && out.response == Failure(500, usageAck.message)
    // past the gate, every awaited call that throws is answered with a 500 carrying its message
    ensures !LimitReached(plan, freeUsage) && reply.Threw? ==> out.response == Failure(500, reply.message)
    ensures !LimitReached(plan, freeUsage) && reply.Returned? && insertAck.Threw? ==>
              out.response == Failure(500, insertAck.message)
    ensures !LimitReached(plan, freeUsage) && reply.Returned? && insertAck.Returned? && plan != Premium && usageAck.Threw? ==>
              out.response == Failure(500, usageAck.message)
    // and when none throws, the generated content is returned
    ensures !LimitReached(plan, freeUsage) && reply.Returned? && insertAck.Returned? && (plan == Premium || usageAck.Returned?) ==>
              out.response == Success(200, reply.value)
  {
    if LimitReached(plan, freeUsage) then Served(Failure(200, LimitMessage), w)
    else
      var w1 := w.Perform(ChatCall(ChatRequest(prompt, maxTokens), reply));
      match reply
      case Threw(m) => Served(Failure(500, m), w1)
      case Returned(content) =>
        var w2 := w1.Perform(InsertCall(TextRow(kind, userId, prompt, content), insertAck));
        match insertAck
        case Threw(m) => Served(Failure(500, m), w2)
        case Returned(_) =>
          if plan == Premium then Served(Success(200, content), w2)
          else
            var w3 := w2.Perform(UsageWrite(userId, freeUsage + 1, usageAck));
            match usageAck
            case Threw(m) => Served(Failure(500, m), w3)
            case Returned(_) => Served(Success(200, content), w3)
  }

  /**
    `generateArticle`: the body's `length`, when there is one, is the token ceiling;
    without it no ceiling is sent. Rows are typed 'article'.
  */
  function ArticleStep(w: World, userId: UserId, prompt: string, length: Option<int>, plan: string, freeUsage: int,
                       reply: Outcome<string>, insertAck: Outcome<()>, usageAck: Outcome<()>): (out: Served)
    ensures !LimitReached(plan, freeUsage) ==>
              |out.after.calls| > |w.calls| && out.after.calls[|w.calls|] == ChatCall(ChatRequest(prompt, length), reply)
    ensures out.response.Success? ==>
              out.after.creations == w.creations + [Creation(userId, prompt, out.response.content, Article, None)]
  {
    TextStep(w, Article, userId, prompt, length, plan, freeUsage, reply, insertAck, usageAck)
  }

  /** `generateBlogTitle`: the ceiling is fixed at 200 whatever the body says; rows are typed 'blog-title'. */
  function BlogTitleStep(w: World, userId: UserId, prompt: string, plan: string, freeUsage: int,
                         reply: Outcome<string>, insertAck: Outcome<()>, usageAck: Outcome<()>): (out: Served)
    ensures !LimitReached(plan, freeUsage) ==>
              |out.after.calls| > |w.calls| && out.after.calls[|w.calls|] == ChatCall(ChatRequest(prompt, Some(200)), reply)
    ensures out.response.Success? ==>
              out.after.creations == w.creations + [Creation(userId, prompt, out.response.content, BlogTitle, None)]
  {
    TextStep(w, BlogTitle, userId, prompt, Some(TitleTokens), plan, freeUsage, reply, insertAck, usageAck)
  }

  /** `!process.env.CLIPDROP_API_KEY` is false: the key is set and not empty. */
  function HasKey(apiKey: Option<string>): (present: bool)
    ensures present <==> apiKey.Some? && |apiKey.value| > 0
  {
    apiKey.Some? && apiKey.value != ""
  }

  /** `publish ?? false`. */
  function PublishFlag(publish: Option<bool>): (flag: bool)
    ensures publish.Some? ==> flag == publish.value
    ensures publish == None ==> !flag
  {
    match publish
    case Some(p) => p
    case None => false
  }

  /** The row `generateImage` stores for an uploaded asset. */
  function ImageRow(userId: UserId, prompt: string, url: string, publish: Option<bool>): Creation
  {
    Creation(userId, prompt, url, Image, Some(PublishFlag(publish)))
  }

  /**
    `generateImage`: no quota gate and no usage write. The key check, the Clipdrop
    call, the status check, the MIME sniffing and data URI, the upload, the INSERT.
    `decodeUtf8` stands for `Buffer.toString('utf-8')` on the error body.
  */
  function ImageStep(w: World, userId: UserId, prompt: string, publish: Option<bool>, apiKey: Option<string>,
                     image: Outcome<HttpReply>, decodeUtf8: seq<Byte> -> string,
                     url: Outcome<string>, insertAck: Outcome<()>): (out: Served)
    ensures out.after.freeUsage == w.freeUsage && out.after.plans == w.plans
    ensures !HasKey(apiKey) ==> out == Served(Failure(500, KeyMissingMessage), w)
    // an upstream status other than 200 is passed through, before any upload or insert
    ensures HasKey(apiKey) && image.Returned? && image.value.status != 200 ==>
              out.response == Failure(image.value.status, ServicePrefix + decodeUtf8(image.value.data))
              && out.after == w.Perform(ImageCall(prompt, image))
    // a row is stored exactly when the response is a success, and it holds the uploaded URL
    ensures out.after.creations != w.creations <==> out.response.Success?
    ensures out.response.Success? ==>
              out.response.status == 200
              && out.after.creations == w.creations + [ImageRow(userId, prompt, out.response.content, publish)]
    ensures out.response.Success? ==> publish == None ==> out.after.creations[|w.creations|].publish == Some(false)
    ensures out.response.Success? ==> publish.Some? ==> out.after.creations[|w.creations|].publish == publish
    // what was uploaded is the data URI of the bytes Clipdrop returned with status 200
    ensures out.response.Success? ==>
              image.Returned? && image.value.status == 200 && url == Returned(out.response.content)
              && |out.after.calls| == |w.calls| + 3
              && out.after.calls[|w.calls| + 1] == UploadCall(DataUri(DetectMime(image.value.data), image.value.data), url)
    // a 200 reply whose upload and INSERT both return is answered with the uploaded URL
    ensures HasKey(apiKey) && image.Returned? && image.value.status == 200 && url.Returned? && insertAck.Returned? ==>
              out.response == Success(200, url.value)
    // every awaited call that throws is answered with a 500 carrying its message
    ensures HasKey(apiKey) && image.Threw? ==> out.response == Failure(500, image.message)
    ensures HasKey(apiKey) && image.Returned? && image.value.status == 200 && url.Threw? ==>
              out.response == Failure(500, url.message)
    ensures HasKey(apiKey) && image.Returned? && image.value.status == 200 && url.Returned? && insertAck.Threw? ==>
              out.response == Failure(500, insertAck.message)
  {
    if !HasKey(apiKey) then Served(Failure(500, KeyMissingMessage), w)
    else
      var w1 := w.Perform(ImageCall(prompt, image));
      match image
      case Threw(m) => Served(Failure(500, m), w1)
      case Returned(HttpReply(status, data)) =>
        if status != 200 then Served(Failure(status, ServicePrefix + decodeUtf8(data)), w1)
        else
          var w2 := w1.Perform(UploadCall(DataUri(DetectMime(data), data), url));
          match url
          case Threw(m) => Served(Failure(500, m), w2)
          case Returned(secureUrl) =>
            var w3 := w2.Perform(InsertCall(ImageRow(userId, prompt, secureUrl, publish), insertAck));
            match insertAck
            case Threw(m) => Served(Failure(500, m), w3)
            case Returned(_) => Served(Success(200, secureUrl), w3)
  }

  /** A text request is either refused by the gate or changes the world exactly by the calls it logs. */
  lemma TextStepReplaysLog(w: World, kind: Kind, userId: UserId, prompt: string, maxTokens: Option<int>,
                           plan: string, freeUsage: int,
                           reply: Outcome<string>, insertAck: Outcome<()>, usageAck: Outcome<()>)
    ensures var out := TextStep(w, kind, userId, prompt, maxTokens, plan, freeUsage, reply, insertAck, usageAck);
      |w.calls| <= |out.after.calls| && out.after == Replay(w, out.after.calls[|w.calls|..])
  {
    var out := TextStep(w, kind, userId, prompt, maxTokens, plan, freeUsage, reply, insertAck, usageAck);
    if !LimitReached(plan, freeUsage) {
      var c1 := ChatCall(ChatRequest(prompt, maxTokens), reply);
      ReplaySnoc(w, [], c1);
      if reply.Returned? {
        var c2 := InsertCall(TextRow(kind, userId, prompt, reply.value), insertAck);
        ReplaySnoc(w, [c1], c2);
        if insertAck.Returned? && plan != Premium {
          var c3 := UsageWrite(userId, freeUsage + 1, usageAck);
          ReplaySnoc(w, [c1, c2], c3);
          assert out.after.calls[|w.calls|..] == [c1, c2, c3];
        } else {
          assert out.after.calls[|w.calls|..] == [c1, c2];
        }
      } else {
        assert out.after.calls[|w.calls|..] == [c1];
      }
    } else {
      assert out.after.calls[|w.calls|..] == [];
    }
  }

  /** The text generators keep the call log well ordered: provider, then INSERT, then usage write. */
  lemma TextStepKeepsOrder(w: World, kind: Kind, userId: UserId, prompt: string, maxTokens: Option<int>,
                           plan: string, freeUsage: int,
                           reply: Outcome<string>, insertAck: Outcome<()>, usageAck: Outcome<()>)
    requires kind != Image
    requires WellOrdered(w.calls)
    ensures WellOrdered(TextStep(w, kind, userId, prompt, maxTokens, plan, freeUsage, reply, insertAck, usageAck).after.calls)
  {
    if !LimitReached(plan, freeUsage) {
      var c1 := ChatCall(ChatRequest(prompt, maxTokens), reply);
      WellOrderedSnoc(w.calls, c1);
      if reply.Returned? {
        var c2 := InsertCall(TextRow(kind, userId, prompt, reply.value), insertAck);
        WellOrderedSnoc(w.calls + [c1], c2);
        if insertAck.Returned? && plan != Premium {
          WellOrderedSnoc(w.calls + [c1] + [c2], UsageWrite(userId, freeUsage + 1, usageAck));
        }
      }
    }
  }

  /** An image request changes the world exactly by the calls it logs. */
  lemma ImageStepReplaysLog(w: World, userId: UserId, prompt: string, publish: Option<bool>, apiKey: Option<string>,
                            image: Outcome<HttpReply>, decodeUtf8: seq<Byte> -> string,
                            url: Outcome<string>, insertAck: Outcome<()>)
    ensures var out := ImageStep(w, userId, prompt, publish, apiKey, image, decodeUtf8, url, insertAck);
      |w.calls| <= |out.after.calls| && out.after == Replay(w, out.after.calls[|w.calls|..])
  {
    var out := ImageStep(w, userId, prompt, publish, apiKey, image, decodeUtf8, url, insertAck);
    if HasKey(apiKey) {
      var c1 := ImageCall(prompt, image);
      ReplaySnoc(w, [], c1);
      if image.Returned? && image.value.status == 200 {
        var data := image.value.data;
        var c2 := UploadCall(DataUri(DetectMime(data), data), url);
        ReplaySnoc(w, [c1], c2);
        if url.Returned? {
          var c3 := InsertCall(ImageRow(userId, prompt, url.value, publish), insertAck);
          ReplaySnoc(w, [c1, c2], c3);
          assert out.after.calls[|w.calls|..] == [c1, c2, c3];
        } else {
          assert out.after.calls[|w.calls|..] == [c1, c2];
        }
      } else {
        assert out.after.calls[|w.calls|..] == [c1];
      }
    } else {
      assert out.after.calls[|w.calls|..] == [];
    }
  }

  /** The image generator keeps the call log well ordered: Clipdrop 200, then upload, then INSERT. */
  lemma ImageStepKeepsOrder(w: World, userId: UserId, prompt: string, publish: Option<bool>, apiKey: Option<string>,
                            image: Outcome<HttpReply>, decodeUtf8: seq<Byte> -> string,
                            url: Outcome<string>, insertAck: Outcome<()>)
    requires WellOrdered(w.calls)
    ensures WellOrdered(ImageStep(w, userId, prompt, publish, apiKey, image, decodeUtf8, url, insertAck).after.calls)
  {
    if HasKey(apiKey) {
      var c1 := ImageCall(prompt, image);
      WellOrderedSnoc(w.calls, c1);
      if image.Returned? && image.value.status == 200 {
        var data := image.value.data;
        var c2 := UploadCall(DataUri(DetectMime(data), data), url);
        WellOrderedSnoc(w.calls + [c1], c2);
        if url.Returned? {
          WellOrderedSnoc(w.calls + [c1] + [c2], InsertCall(ImageRow(userId, prompt, url.value, publish), insertAck));
        }
      }
    }
  }

  /** One text request whose plan and counter are read fresh from the identity provider, as the auth middleware does. */
  datatype TextRequest = TextRequest(kind: Kind, userId: UserId, prompt: string, maxTokens: Option<int>,
                                     reply: Outcome<string>, insertAck: Outcome<()>, usageAck: Outcome<()>)

  function Serve(w: World, r: TextRequest): Served
  {
    TextStep(w, r.kind, r.userId, r.prompt, r.maxTokens, PlanOf(w.plans, r.userId), FreeUsageOf(w.freeUsage, r.userId),
             r.reply, r.insertAck, r.usageAck)
  }

  /** The world after serving `rs` one at a time. */
  function Run(w: World, rs: seq<TextRequest>): (r: World)
    ensures r.plans == w.plans
    decreases |rs|
  {
    if rs == [] then w else Run(Serve(w, rs[0]).after, rs[1..])
  }

  /** How many of `rs` were answered with success for user `u`. */
  function Successes(w: World, rs: seq<TextRequest>, u: UserId): nat
    decreases |rs|
  {
    if rs == [] then 0
    else
      var out := Serve(w, rs[0]);
      (if rs[0].userId == u && out.response.Success? then 1 else 0) + Successes(out.after, rs[1..], u)
  }

  /**
    Served one at a time, a non-premium user's counter grows by exactly one per
    successful text request, so no sequence of requests takes it past the limit
    and at most `FreeLimit - usage` of them succeed.
  */
  lemma {:induction false} FreeQuotaHolds(w: World, rs: seq<TextRequest>, u: UserId)
    requires PlanOf(w.plans, u) != Premium
    ensures FreeUsageOf(Run(w, rs).freeUsage, u) == FreeUsageOf(w.freeUsage, u) + Successes(w, rs, u)
    ensures FreeUsageOf(w.freeUsage, u) <= FreeLimit ==> FreeUsageOf(Run(w, rs).freeUsage, u) <= FreeLimit
    decreases |rs|
  {
    if rs != [] {
      var out := Serve(w, rs[0]);
      FreeQuotaHolds(out.after, rs[1..], u);
      if rs[0].userId == u && out.response.Success? {
        assert out.after.freeUsage == w.freeUsage[u := FreeUsageOf(w.freeUsage, u) + 1];
      } else if rs[0].userId == u {
        assert out.after.freeUsage == w.freeUsage;
      }
    }
  }

  /** A premium user's counter is never written, whatever is asked. */
  lemma {:induction false} PremiumUsageUntouched(w: World, rs: seq<TextRequest>, u: UserId)
    requires PlanOf(w.plans, u) == Premium
    ensures FreeUsageOf(Run(w, rs).freeUsage, u) == FreeUsageOf(w.freeUsage, u)
    decreases |rs|
  {
    if rs != [] {
      PremiumUsageUntouched(Serve(w, rs[0]).after, rs[1..], u);
    }
  }

  /**
    A free user with 9 generations used asks for an article and gets it: the row is
    stored and the counter becomes 10. The same request is then refused.
  */
  lemma TenthArticleIsTheLast(w: World, u: UserId, prompt: string, length: Option<int>, content: string,
                              reply: Outcome<string>, insertAck: Outcome<()>, usageAck: Outcome<()>)
    requires PlanOf(w.plans, u) == Free && FreeUsageOf(w.freeUsage, u) == 9
    ensures var first := ArticleStep(w, u, prompt, length, Free, 9, Returned(content), Returned(()), Returned(()));
      && first.response == Success(200, content)
      && first.after.creations == w.creations + [Creation(u, prompt, content, Article, None)]
      && FreeUsageOf(first.after.freeUsage, u) == 10
      && var second := ArticleStep(first.after, u, prompt, length, PlanOf(first.after.plans, u),
                                   FreeUsageOf(first.after.freeUsage, u), reply, insertAck, usageAck);
         second == Served(Failure(200, LimitMessage), first.after)
  {
  }
}
