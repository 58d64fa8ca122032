/**
  The external state the controller acts on, seen as one value: the `creations`
  table, the identity provider's plan and free-usage metadata, and the ordered log of
  the external calls the controller awaited together with what each returned.
  `Perform` is the one definition of what an awaited call does to that state.
*/
module Records {
  import opened Outcomes
  import opened Base64
  import opened Quota
  import opened ImageFormat

  /** The `type` column of a creation row: the literals 'article', 'blog-title' and 'image'. */
  datatype Kind = Article | BlogTitle | Image

  /**
    One row of `creations`. `publish` is None when the INSERT leaves the column out
    (articles and blog titles), so the table's own default applies.
  */
  datatype Creation = Creation(userId: UserId, prompt: string, content: string, kind: Kind, publish: Option<bool>)

  /**
    The parts of a chat-completion request the controller chooses: the prompt and the
    token ceiling. `maxTokens` is None when no ceiling is sent: an `undefined`
    `max_completion_tokens` is dropped when the request body is serialised.
  */
  datatype ChatRequest = ChatRequest(prompt: string, maxTokens: Option<int>)

  /** A Clipdrop reply read as an array buffer, whatever its status. */
  datatype HttpReply = HttpReply(status: int, data: seq<Byte>)

  /** An awaited external call and what it yielded. */
  datatype Call =
    | ChatCall(request: ChatRequest, reply: Outcome<string>)
    | ImageCall(prompt: string, image: Outcome<HttpReply>)
    | UploadCall(dataUri: string, url: Outcome<string>)
    | InsertCall(row: Creation, ack: Outcome<()>)
    | UsageWrite(userId: UserId, value: int, written: Outcome<()>)

  datatype World = World(creations: seq<Creation>, plans: map<UserId, string>,
                         freeUsage: map<UserId, int>, calls: seq<Call>)
  {
    /**
      The effect of awaiting `c`: it is logged; an INSERT that returned adds its row at
      the end of the table and a metadata write that returned sets the user's counter.
      A call that threw changes nothing but the log.
    */
    function Perform(c: Call): (w: World)
      ensures w.calls == calls + [c] && w.plans == plans
      ensures w.creations == (if c.InsertCall? && c.ack.Returned? then creations + [c.row] else creations)
      ensures w.freeUsage == (if c.UsageWrite? && c.written.Returned? then freeUsage[c.userId := c.value] else freeUsage)
    {
      match c
      case InsertCall(row, Returned(_)) => this.(creations := creations + [row], calls := calls + [c])
      case UsageWrite(u, n, Returned(_)) => this.(freeUsage := freeUsage[u := n], calls := calls + [c])
      case _ => this.(calls := calls + [c])
    }
  }

  /** The state reached from `w` by performing `cs` in order. */
  function Replay(w: World, cs: seq<Call>): (r: World)
    ensures r.calls == w.calls + cs && r.plans == w.plans
    decreases |cs|
  {
    if cs == [] then w else Replay(w, cs[..|cs| - 1]).Perform(cs[|cs| - 1])
  }

  /** Rows are only ever added, and only by the INSERTs of the log that returned. */
  function Inserted(cs: seq<Call>): (rows: seq<Creation>)
    ensures |rows| <= |cs|
    decreases |cs|
  {
    if cs == [] then []
    else
      var c := cs[|cs| - 1];
      Inserted(cs[..|cs| - 1]) + (if c.InsertCall? && c.ack.Returned? then [c.row] else [])
  }

  /** Replaying a log appends to the table exactly the rows of its successful INSERTs. */
  lemma {:induction false} ReplayAppendsInserted(w: World, cs: seq<Call>)
    ensures Replay(w, cs).creations == w.creations + Inserted(cs)
    decreases |cs|
  {
    if cs != [] {
      ReplayAppendsInserted(w, cs[..|cs| - 1]);
    }
  }

  /** A call that only a previous call may lead to. */
  predicate Dependent(c: Call)
  {
    c.UploadCall? || c.InsertCall? || c.UsageWrite?
  }

  /**
    `c` may directly follow `prev`: an upload only after Clipdrop answered 200, and of
    the data URI of the bytes it sent; an INSERT only after the provider (chat or
    upload) returned the content it stores; a usage write only after a successful
    INSERT of a text creation by the same user.
  */
  predicate Follows(prev: Call, c: Call)
  {
    match c
    case UploadCall(uri, _) =>
      prev.ImageCall? && prev.image.Returned? && prev.image.value.status == 200
      && uri == DataUri(DetectMime(prev.image.value.data), prev.image.value.data)
    case InsertCall(row, _) =>
      (prev.ChatCall? && prev.reply.Returned? && row.kind != Image && row.publish == None
         && row.prompt == prev.request.prompt && row.content == prev.reply.value)
      || (prev.UploadCall? && prev.url.Returned? && row.kind == Image && row.publish.Some?
         && row.content == prev.url.value)
    case UsageWrite(u, _, _) =>
      prev.InsertCall? && prev.ack.Returned? && prev.row.kind != Image && prev.row.userId == u
    case _ => true
  }

  /** Every dependent call of the log directly follows a call that allows it. */
  ghost predicate WellOrdered(cs: seq<Call>)
  {
    forall i | 0 <= i < |cs| && Dependent(cs[i]) :: 0 < i && Follows(cs[i - 1], cs[i])
  }

  lemma WellOrderedSnoc(cs: seq<Call>, c: Call)
    requires WellOrdered(cs)
    requires Dependent(c) ==> |cs| > 0 && Follows(cs[|cs| - 1], c)
    ensures WellOrdered(cs + [c])
  {
    var cs' := cs + [c];
    forall i | 0 <= i < |cs'| && Dependent(cs'[i]) ensures 0 < i && Follows(cs'[i - 1], cs'[i]) {
      if i < |cs| {
        assert cs'[i] == cs[i];
        assert 0 < i && cs'[i - 1] == cs[i - 1];
      }
    }
  }

  lemma ReplaySnoc(w: World, cs: seq<Call>, c: Call)
    ensures Replay(w, cs + [c]) == Replay(w, cs).Perform(c)
  {
    assert (cs + [c])[..|cs|] == cs;
  }
}
