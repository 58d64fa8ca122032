/**
  The three request handlers of the AI controller, step by step over the mutable
  external state: each awaited call is one `Perform`, in the order the handler
  awaits it, and each handler's effect is the one its step function describes.
*/
module AiController {
  import opened Outcomes
  import opened Base64
  import opened Quota
  import opened ImageFormat
  import opened Records
  import opened Pipeline

  class Backend {
    /** The `creations` table. */
    var creations: seq<Creation>
    /** `publicMetadata.plan` per user; the controller never writes it. */
    const plans: map<UserId, string>
    /** `privateMetadata.free_usage` per user. */
    var freeUsage: map<UserId, int>
    /** The external calls awaited so far, with what each yielded. */
    var calls: seq<Call>

    function State(): World
      reads this
    {
      World(creations, plans, freeUsage, calls)
    }

    /** Every INSERT, upload and usage write so far came right after the call that allowed it. */
    ghost predicate Valid()
      reads this
    {
      WellOrdered(calls)
    }

    constructor (creations: seq<Creation>, plans: map<UserId, string>, freeUsage: map<UserId, int>)
      ensures Valid()
      ensures State() == World(creations, plans, freeUsage, [])
    {
      this.creations := creations;
      this.plans := plans;
      this.freeUsage := freeUsage;
      this.calls := [];
    }

    /**
      Awaits one external call: logs it and applies its write when it returned. An
      upload, INSERT or usage write may only be awaited right after the call that
      allows it, so the log stays well ordered.
    */
    method Perform(c: Call)
      requires Valid()
      requires Dependent(c) ==> |calls| > 0 && Follows(calls[|calls| - 1], c)
      modifies this
      ensures Valid()
      ensures State() == old(State()).Perform(c)
    {
      WellOrderedSnoc(calls, c);
      match c {
        case InsertCall(row, Returned(_)) =>
          creations := creations + [row];
        case UsageWrite(u, n, Returned(_)) =>
          freeUsage := freeUsage[u := n];
        case _ =>
      }
      calls := calls + [c];
    }

    method GenerateText(kind: Kind, userId: UserId, prompt: string, maxTokens: Option<int>,
                        plan: string, usedFree: int,
                        reply: Outcome<string>, insertAck: Outcome<()>, usageAck: Outcome<()>)
      returns (r: Response)
      requires Valid() && kind != Image
      modifies this
      ensures Valid()
      ensures Served(r, State())
           == TextStep(old(State()), kind, userId, prompt, maxTokens, plan, usedFree, reply, insertAck, usageAck)
    {
      if LimitReached(plan, usedFree) {
        return Failure(200, LimitMessage);
      }
      Perform(ChatCall(ChatRequest(prompt, maxTokens), reply));
      if reply.Threw? {
        return Failure(500, reply.message);
      }
      var content := reply.value;
      Perform(InsertCall(TextRow(kind, userId, prompt, content), insertAck));
      if insertAck.Threw? {
        return Failure(500, insertAck.message);
      }
      if plan != Premium {
        Perform(UsageWrite(userId, usedFree + 1, usageAck));
        if usageAck.Threw? {
          return Failure(500, usageAck.message);
        }
      }
      return Success(200, content);
    }

    /**
      POST /api/ai/generate-article with `{prompt, length}`, for a user whose plan and
      usage the auth middleware resolved; `length` is None when the body has none.
    */
    method GenerateArticle(userId: UserId, prompt: string, length: Option<int>, plan: string, usedFree: int,
                           reply: Outcome<string>, insertAck: Outcome<()>, usageAck: Outcome<()>)
      returns (r: Response)
      requires Valid()
      modifies this
      ensures Valid()
      ensures Served(r, State())
           == ArticleStep(old(State()), userId, prompt, length, plan, usedFree, reply, insertAck, usageAck)
    {
      r := GenerateText(Article, userId, prompt, length, plan, usedFree, reply, insertAck, usageAck);
    }

    /** POST /api/ai/generate-blog-title with `{prompt}`. */
    method GenerateBlogTitle(userId: UserId, prompt: string, plan: string, usedFree: int,
                             reply: Outcome<string>, insertAck: Outcome<()>, usageAck: Outcome<()>)
      returns (r: Response)
      requires Valid()
      modifies this
      ensures Valid()
      ensures Served(r, State())
           == BlogTitleStep(old(State()), userId, prompt, plan, usedFree, reply, insertAck, usageAck)
    {
      r := GenerateText(BlogTitle, userId, prompt, Some(TitleTokens), plan, usedFree, reply, insertAck, usageAck);
    }

    /** POST /api/ai/generate-image with `{prompt, publish}`; `apiKey` is `process.env.CLIPDROP_API_KEY`. */
    method GenerateImage(userId: UserId, prompt: string, publish: Option<bool>, apiKey: Option<string>,
                         image: Outcome<HttpReply>, decodeUtf8: seq<Byte> -> string,
                         url: Outcome<string>, insertAck: Outcome<()>)
      returns (r: Response)
      requires Valid()
      modifies this
      ensures Valid()
      ensures Served(r, State())
           == ImageStep(old(State()), userId, prompt, publish, apiKey, image, decodeUtf8, url, insertAck)
    {
      if !HasKey(apiKey) {
        return Failure(500, KeyMissingMessage);
      }
      Perform(ImageCall(prompt, image));
      if image.Threw? {
        return Failure(500, image.message);
      }
      var reply := image.value;
      if reply.status != 200 {
        return Failure(reply.status, ServicePrefix + decodeUtf8(reply.data));
      }
      var buffer := reply.data;
      var mimeType := DetectMime(buffer);
      var base64Image := DataUri(mimeType, buffer);
      Perform(UploadCall(base64Image, url));
      if url.Threw? {
        return Failure(500, url.message);
      }
      var secureUrl := url.value;
      Perform(InsertCall(ImageRow(userId, prompt, secureUrl, publish), insertAck));
      if insertAck.Threw? {
        return Failure(500, insertAck.message);
      }
      return Success(200, secureUrl);
    }
  }

  /**
    A free user with 9 generations used: the article is generated, stored and counted,
    and the next article request is refused without reaching the provider.
  */
  method FreeTierScenario(u: UserId, prompt: string, content: string) returns (first: Response, second: Response)
    ensures first == Success(200, content)
    ensures second == Failure(200, LimitMessage)
  {
    var backend := new Backend([], map[u := Free], map[u := 9]);
    var plan, usage := PlanOf(backend.plans, u), FreeUsageOf(backend.freeUsage, u);
    first := backend.GenerateArticle(u, prompt, None, plan, usage, Returned(content), Returned(()), Returned(()));
    assert backend.creations == [Creation(u, prompt, content, Article, None)];
    plan, usage := PlanOf(backend.plans, u), FreeUsageOf(backend.freeUsage, u);
    assert usage == 10;
    second := backend.GenerateArticle(u, prompt, None, plan, usage, Returned(content), Returned(()), Returned(()));
  }
}
