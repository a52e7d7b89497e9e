/** The Kleinanzeigen.de message cache: each cached conversation becomes one
    row per message, or one fallback row built from the conversation's
    client data when its message list is empty. */
module KleinanzeigenMessages {

  import opened Common
  import opened UrlList

  // ---------------------------------------------------------------------
  // The decoded conversation cache. Keys the extractor reads outside any
  // error handling are record fields; `clientData`, whose keys it reads
  // conditionally or inside a try block, stays a key-value map.

  datatype Ad = Ad(displayTitle: Value, identifier: Value)

  /** A user as the rows show one: a display name and an account id. */
  datatype Party = Party(name: Value, identifier: Value)

  datatype Attachment = Attachment(imageURL: string)

  /** `sentDate` is a Cocoa second count. */
  datatype Message = Message(
    messageId: Value,
    sentDate: int,
    text: Value,
    attachments: seq<Attachment>,
    sender: Value)

  datatype Conversation = Conversation(
    ad: Ad,
    clientData: map<string, Value>,
    counterParty: Party,
    messages: seq<Message>)

  const MessageHeaders: seq<string> := [
    "Advertisement", "Ad-ID", "Sent", "From_Name", "From_ID", "To_Name",
    "To_ID", "Message", "Attachment", "Message_ID", "AD-Status"]

  // ---------------------------------------------------------------------
  // Per-conversation values.

  /** Python's `v == 0`: integer zero, float zero and False compare equal. */
  predicate IsZero(v: Value)
  {
    v == Int(0) || v == Real(0.0) || v == Bool(false)
  }

  /** A stored Cocoa date plus the epoch offset, for the numeric kinds
      Python can add an integer to (bool counts as 0 or 1; a float is read
      to the whole second); None for any other value, which raises. */
  function ShiftedTime(v: Value): (t: Option<Value>)
    ensures t.Some? <==> v.Int? || v.Bool? || v.Real?
    ensures v.Int? ==> t == Some(Time(UnixFromCocoa(v.i)))
    ensures v.Bool? ==> t == Some(Time(UnixFromCocoa(if v.b then 1 else 0)))
    ensures v.Real? ==> t == Some(Time(UnixFromCocoa(v.r.Floor)))
  {
    match v
    case Int(i) => Some(Time(UnixFromCocoa(i)))
    case Bool(b) => Some(Time(UnixFromCocoa(if b then 1 else 0)))
    case Real(r) => Some(Time(UnixFromCocoa(r.Floor)))
    case _ => None
  }

  /** The user's own name and id, chosen by their role in the conversation. */
  function OwnIdentity(cd: map<string, Value>): (r: Result<Party>)
    ensures r.Ok? ==> "role" in cd
    ensures r.Ok? && cd["role"] == Text("Seller") ==>
      "sellerName" in cd && "userIdSeller" in cd && r.value == Party(cd["sellerName"], cd["userIdSeller"])
    ensures r.Ok? && cd["role"] != Text("Seller") ==>
      "buyerName" in cd && "userIdBuyer" in cd && r.value == Party(cd["buyerName"], cd["userIdBuyer"])
    ensures r.Err? ==> r.failure.key !in cd
    ensures ("role" in cd &&
             if cd["role"] == Text("Seller") then "sellerName" in cd && "userIdSeller" in cd
             else "buyerName" in cd && "userIdBuyer" in cd)
            ==> r.Ok?
  {
    if "role" !in cd then Err(MissingKey("role"))
    else if cd["role"] == Text("Seller") then
      if "sellerName" !in cd then Err(MissingKey("sellerName"))
      else if "userIdSeller" !in cd then Err(MissingKey("userIdSeller"))
      else Ok(Party(cd["sellerName"], cd["userIdSeller"]))
    else
      if "buyerName" !in cd then Err(MissingKey("buyerName"))
      else if "userIdBuyer" !in cd then Err(MissingKey("userIdBuyer"))
      else Ok(Party(cd["buyerName"], cd["userIdBuyer"]))
  }

  /** The advertisement status, "UNKNOWN" when the client data lacks it. */
  function AdStatus(cd: map<string, Value>): Value
  {
    if "adStatus" in cd then cd["adStatus"] else Text("UNKNOWN")
  }

  /** What every row of one conversation shares. */
  datatype Context = Context(ad: Ad, adStatus: Value, me: Party, counterParty: Party)

  /** One output row: the message goes from the user to the counterparty
      when fromMe holds, the other way round otherwise. */
  function Row(ctx: Context, sent: Value, fromMe: bool, text: Value, attachment: Value, messageId: Value): (r: seq<Value>)
    ensures |r| == |MessageHeaders|
  {
    var from := if fromMe then ctx.me else ctx.counterParty;
    var to := if fromMe then ctx.counterParty else ctx.me;
    [ ctx.ad.displayTitle, ctx.ad.identifier, sent,
      from.name, from.identifier, to.name, to.identifier,
      text, attachment, messageId, ctx.adStatus ]
  }

  function ImageURLs(atts: seq<Attachment>): (urls: seq<string>)
    ensures |urls| == |atts|
    ensures forall i :: 0 <= i < |atts| ==> urls[i] == atts[i].imageURL
  {
    seq(|atts|, i requires 0 <= i < |atts| => atts[i].imageURL)
  }

  /** The Attachment column: "none", or the image URLs joined by ", ". */
  function AttachmentCell(atts: seq<Attachment>): (v: Value)
    ensures v.Text?
    ensures atts == [] ==> v == Text("none")
    ensures |atts| == 1 ==> v == Text(atts[0].imageURL)
  {
    if atts == [] then Text("none") else Text(Join(ImageURLs(atts)))
  }

  /** Reads the image URLs back from an Attachment cell. */
  function URLsOf(cell: Value): seq<string>
  {
    if cell == Text("none") then []
    else if cell.Text? then Split(cell.s)
    else []
  }

  function MessageRow(ctx: Context, m: Message): (r: seq<Value>)
    ensures |r| == |MessageHeaders|
  {
    Row(ctx, Time(UnixFromCocoa(m.sentDate)), IsZero(m.sender), m.text,
        AttachmentCell(m.attachments), m.messageId)
  }

  /** The attachment and message id the last processed message leaves in
      the extractor's variables, which outlive the conversation loop. */
  datatype Stale = Stale(attachment: Value, messageId: Value)

  function StaleAfter(m: Message): Stale
  {
    Stale(AttachmentCell(m.attachments), m.messageId)
  }

  /** The variables after one conversation: a conversation with messages
      leaves its last message's values, an empty one leaves them as they were. */
  function NextStale(c: Conversation, stale: Option<Stale>): Option<Stale>
  {
    if c.messages == [] then stale else Some(StaleAfter(c.messages[|c.messages| - 1]))
  }

  /** The row of a conversation without messages, or None when the guarded
      block fails: a missing key, a receivedDate that is not a number, or no
      message processed yet (the attachment and id variables are unbound). */
  function FallbackRow(ctx: Context, cd: map<string, Value>, stale: Option<Stale>): (r: Option<seq<Value>>)
    ensures r.Some? <==>
      && stale.Some? && "textShortTrimmed" in cd && "boundness" in cd
      && "receivedDate" in cd && ShiftedTime(cd["receivedDate"]).Some?
    ensures r.Some? ==>
      && |r.value| == |MessageHeaders|
      && r.value[..3] == [ctx.ad.displayTitle, ctx.ad.identifier, ShiftedTime(cd["receivedDate"]).value]
      && r.value[7..] == [cd["textShortTrimmed"], stale.value.attachment, stale.value.messageId, ctx.adStatus]
      && (cd["boundness"] == Text("OUTBOUND") ==>
            r.value[3..7] == [ctx.me.name, ctx.me.identifier, ctx.counterParty.name, ctx.counterParty.identifier])
      && (cd["boundness"] != Text("OUTBOUND") ==>
            r.value[3..7] == [ctx.counterParty.name, ctx.counterParty.identifier, ctx.me.name, ctx.me.identifier])
  {
    if "textShortTrimmed" !in cd || "receivedDate" !in cd then None
    else
      var sent := ShiftedTime(cd["receivedDate"]);
      if sent.None? || "boundness" !in cd || stale.None? then None
      else Some(Row(ctx, sent.value, cd["boundness"] == Text("OUTBOUND"), cd["textShortTrimmed"],
                    stale.value.attachment, stale.value.messageId))
  }

  datatype Step = Step(rows: seq<seq<Value>>, stale: Option<Stale>)

  /** The rows of one conversation and the variables it leaves behind. */
  function ConversationRows(c: Conversation, stale: Option<Stale>): (r: Result<Step>)
    ensures r.Ok? <==> OwnIdentity(c.clientData).Ok?
    ensures r.Ok? ==> r.value.stale == NextStale(c, stale)
  {
    match OwnIdentity(c.clientData)
    case Err(f) => Err(f)
    case Ok(me) =>
      var ctx := Context(c.ad, AdStatus(c.clientData), me, c.counterParty);
      if c.messages == [] then
        var fallback := FallbackRow(ctx, c.clientData, stale);
        Ok(Step(if fallback.Some? then [fallback.value] else [], stale))
      else
        Ok(Step(seq(|c.messages|, i requires 0 <= i < |c.messages| => MessageRow(ctx, c.messages[i])),
                NextStale(c, stale)))
  }

  function Prepend(rows: seq<seq<Value>>, r: Result<seq<seq<Value>>>): Result<seq<seq<Value>>>
  {
    match r
    case Ok(rest) => Ok(rows + rest)
    case Err(f) => Err(f)
  }

  /** The rows of the remaining conversations, given the variables left by
      the ones before; the first missing identity key aborts the artifact. */
  function CacheRowsFrom(cs: seq<Conversation>, stale: Option<Stale>): Result<seq<seq<Value>>>
    decreases |cs|
  {
    if cs == [] then Ok([])
    else
      match ConversationRows(cs[0], stale)
      case Err(f) => Err(f)
      case Ok(st) => Prepend(st.rows, CacheRowsFrom(cs[1..], st.stale))
  }

  /** The whole cache: an error when some conversation lacks an identity
      key, and otherwise the rows of each conversation in turn, each taking
      the variables the conversations before it left behind. */
  function CacheRows(cs: seq<Conversation>): (r: Result<seq<seq<Value>>>)
    ensures r.Ok? <==> forall i :: 0 <= i < |cs| ==> OwnIdentity(cs[i].clientData).Ok?
    ensures r.Ok? ==> r.value == RowsThrough(cs) && RowsAligned(r.value)
  {
    CacheRowsCount(cs, None);
    var r := CacheRowsFrom(cs, None);
    if r.Ok? then
      CacheRowsSplit(cs, |cs|);
      assert cs[..|cs|] == cs && cs[|cs|..] == [];
      assert RowsThrough(cs) + [] == RowsThrough(cs);
      r
    else r
  }

  /** Conversation by conversation, each given the variables the ones before
      it leave: the rows of conversation i are those of
      `ConversationRows(cs[i], StaleThrough(cs[..i]))`. */
  function RowsThrough(cs: seq<Conversation>): seq<seq<Value>>
  {
    if cs == [] then []
    else
      var last := ConversationRows(cs[|cs| - 1], StaleThrough(cs[..|cs| - 1]));
      RowsThrough(cs[..|cs| - 1]) + (if last.Ok? then last.value.rows else [])
  }

  /** After the first i conversations, the result is their rows followed by
      the rows of the rest, started from the variables they leave. */
  lemma {:induction false} CacheRowsSplit(cs: seq<Conversation>, i: nat)
    requires i <= |cs|
    requires forall k :: 0 <= k < i ==> OwnIdentity(cs[k].clientData).Ok?
    ensures CacheRowsFrom(cs, None) == Prepend(RowsThrough(cs[..i]), CacheRowsFrom(cs[i..], StaleThrough(cs[..i])))
  {
    if i == 0 {
      assert cs[..0] == [] && cs[0..] == cs;
      var r := CacheRowsFrom(cs, None);
      assert r.Ok? ==> [] + r.value == r.value;
    } else {
      var j := i - 1;
      CacheRowsSplit(cs, j);
      var stale := StaleThrough(cs[..j]);
      CacheRowsFromAt(cs, j, stale);
      var st := ConversationRows(cs[j], stale).value;
      assert cs[..i][..j] == cs[..j] && cs[..i][j] == cs[j];
      assert StaleThrough(cs[..i]) == st.stale;
      assert RowsThrough(cs[..i]) == RowsThrough(cs[..j]) + st.rows;
      PrependTwice(RowsThrough(cs[..j]), st.rows, CacheRowsFrom(cs[i..], st.stale));
    }
  }

  /** The variables after processing the conversations in order, from an
      unbound start. */
  function StaleThrough(cs: seq<Conversation>): Option<Stale>
  {
    if cs == [] then None else NextStale(cs[|cs| - 1], StaleThrough(cs[..|cs| - 1]))
  }

  // ---------------------------------------------------------------------
  // The extractor.

  /** The conversation loop. `stale` stands for the `m_att` and `m_id`
      variables, which the first processed message binds and no later
      statement unbinds; a missing identity key ends the artifact. */
  method MessageCache(cache: seq<Conversation>) returns (result: Result<seq<seq<Value>>>)
    ensures result == CacheRows(cache)
  {
    var dataList: seq<seq<Value>> := [];
    var stale: Option<Stale> := None;
    var i := 0;
    assert cache[i..] == cache;
    assert CacheRowsFrom(cache, None).Ok? ==> [] + CacheRowsFrom(cache, None).value == CacheRowsFrom(cache, None).value;
    while i < |cache|
      invariant 0 <= i <= |cache|
      invariant stale == StaleThrough(cache[..i])
      invariant CacheRows(cache) == Prepend(dataList, CacheRowsFrom(cache[i..], stale))
    {
      assert cache[..i + 1][..i] == cache[..i];
      CacheRowsFromAt(cache, i, stale);
      var step := ConversationStep(cache[i], stale);
      if step.Err? {
        return Err(step.failure);
      }
      PrependTwice(dataList, step.value.rows, CacheRowsFrom(cache[i + 1..], step.value.stale));
      dataList := dataList + step.value.rows;
      stale := step.value.stale;
      i := i + 1;
    }
    assert cache[i..] == [];
    assert dataList + [] == dataList;
    result := Ok(dataList);
  }

  lemma CacheRowsFromAt(cs: seq<Conversation>, i: nat, stale: Option<Stale>)
    requires i < |cs|
    ensures CacheRowsFrom(cs[i..], stale) ==
      match ConversationRows(cs[i], stale)
      case Err(f) => Err(f)
      case Ok(st) => Prepend(st.rows, CacheRowsFrom(cs[i + 1..], st.stale))
  {
    assert cs[i..][0] == cs[i] && cs[i..][1..] == cs[i + 1..];
  }

  /** The body of the conversation loop: the identity reads, then either
      the guarded fallback row or the message loop. */
  method ConversationStep(elem: Conversation, stale: Option<Stale>) returns (r: Result<Step>)
    ensures r == ConversationRows(elem, stale)
  {
    var cd := elem.clientData;
    var adStat := if "adStatus" in cd then cd["adStatus"] else Text("UNKNOWN");
    var me: Party;
    if "role" !in cd {
      return Err(MissingKey("role"));
    }
    if cd["role"] == Text("Seller") {
      if "sellerName" !in cd {
        return Err(MissingKey("sellerName"));
      }
      if "userIdSeller" !in cd {
        return Err(MissingKey("userIdSeller"));
      }
      me := Party(cd["sellerName"], cd["userIdSeller"]);
    } else {
      if "buyerName" !in cd {
        return Err(MissingKey("buyerName"));
      }
      if "userIdBuyer" !in cd {
        return Err(MissingKey("userIdBuyer"));
      }
      me := Party(cd["buyerName"], cd["userIdBuyer"]);
    }
    var ctx := Context(elem.ad, adStat, me, elem.counterParty);
    var rows: seq<seq<Value>> := [];
    var staleOut := stale;
    if elem.messages == [] {
      if "textShortTrimmed" in cd && "receivedDate" in cd {
        var sent := ShiftedTime(cd["receivedDate"]);
        if sent.Some? && "boundness" in cd && stale.Some? {
          var fromMe := cd["boundness"] == Text("OUTBOUND");
          rows := [Row(ctx, sent.value, fromMe, cd["textShortTrimmed"],
                       stale.value.attachment, stale.value.messageId)];
        }
      }
    } else {
      rows, staleOut := MessageRows(ctx, elem.messages, stale);
      assert rows == seq(|elem.messages|, i requires 0 <= i < |elem.messages| => MessageRow(ctx, elem.messages[i]));
    }
    r := Ok(Step(rows, staleOut));
  }

  /** The message loop of one conversation: one row per message, in order,
      and the variables its last message leaves behind. */
  method MessageRows(ctx: Context, messages: seq<Message>, stale: Option<Stale>)
    returns (rows: seq<seq<Value>>, staleOut: Option<Stale>)
    ensures |rows| == |messages|
    ensures forall k :: 0 <= k < |messages| ==> rows[k] == MessageRow(ctx, messages[k])
    ensures staleOut == if messages == [] then stale else Some(StaleAfter(messages[|messages| - 1]))
  {
    rows := [];
    staleOut := stale;
    var k := 0;
    while k < |messages|
      invariant 0 <= k <= |messages|
      invariant |rows| == k
      invariant forall j :: 0 <= j < k ==> rows[j] == MessageRow(ctx, messages[j])
      invariant staleOut == if k == 0 then stale else Some(StaleAfter(messages[k - 1]))
    {
      var message := messages[k];
      var urls := CollectImageURLs(message.attachments);
      var att := if urls == [] then Text("none") else Text(Join(urls));
      staleOut := Some(Stale(att, message.messageId));
      var fromMe := IsZero(message.sender);
      rows := rows + [Row(ctx, Time(UnixFromCocoa(message.sentDate)), fromMe, message.text, att, message.messageId)];
      k := k + 1;
    }
  }

  /** The attachment loop: the image URL of every attachment, in order. */
  method CollectImageURLs(atts: seq<Attachment>) returns (urls: seq<string>)
    ensures urls == ImageURLs(atts)
  {
    urls := [];
    var a := 0;
    while a < |atts|
      invariant 0 <= a <= |atts|
      invariant |urls| == a
      invariant forall j :: 0 <= j < a ==> urls[j] == atts[j].imageURL
    {
      urls := urls + [atts[a].imageURL];
      a := a + 1;
    }
  }

  lemma PrependTwice(p: seq<seq<Value>>, q: seq<seq<Value>>, r: Result<seq<seq<Value>>>)
    ensures Prepend(p, Prepend(q, r)) == Prepend(p + q, r)
  {
    if r.Ok? {
      assert p + (q + r.value) == (p + q) + r.value;
    }
  }

  // ---------------------------------------------------------------------
  // What the message cache promises.

  /** Every row is as wide as the header row. */
  predicate RowsAligned(rows: seq<seq<Value>>)
  {
    forall k :: 0 <= k < |rows| ==> |rows[k]| == |MessageHeaders|
  }

  /** The context the extractor builds for a conversation whose identity
      keys are present. */
  function ContextOf(c: Conversation): Context
    requires OwnIdentity(c.clientData).Ok?
  {
    Context(c.ad, AdStatus(c.clientData), OwnIdentity(c.clientData).value, c.counterParty)
  }

  /** A conversation with messages yields one row per message, in message
      order: the sent time is the message's Cocoa date shifted to the Unix
      epoch, and text, attachments and id are the message's own. */
  lemma OneRowPerMessage(c: Conversation, stale: Option<Stale>)
    requires c.messages != [] && OwnIdentity(c.clientData).Ok?
    ensures ConversationRows(c, stale).Ok?
    ensures var rows := ConversationRows(c, stale).value.rows;
      |rows| == |c.messages| && RowsAligned(rows) &&
      forall k :: 0 <= k < |rows| ==>
        rows[k] == MessageRow(ContextOf(c), c.messages[k]) &&
        rows[k][0] == c.ad.displayTitle && rows[k][1] == c.ad.identifier &&
        rows[k][2].Time? && CocoaFromUnix(rows[k][2].unix) == c.messages[k].sentDate &&
        rows[k][7] == c.messages[k].text &&
        rows[k][8] == AttachmentCell(c.messages[k].attachments) &&
        rows[k][9] == c.messages[k].messageId &&
        rows[k][10] == AdStatus(c.clientData)
  {
  }

  /** Direction: a message whose sender is 0 goes from the user to the
      counterparty; any other sender reverses From and To. */
  lemma DirectionBySender(ctx: Context, m: Message)
    ensures IsZero(m.sender) ==>
      MessageRow(ctx, m)[3..7] == [ctx.me.name, ctx.me.identifier, ctx.counterParty.name, ctx.counterParty.identifier]
    ensures !IsZero(m.sender) ==>
      MessageRow(ctx, m)[3..7] == [ctx.counterParty.name, ctx.counterParty.identifier, ctx.me.name, ctx.me.identifier]
  {
  }

  /** The user's own side of a message row comes from the seller keys when
      the role is "Seller" and from the buyer keys for any other role: From
      for a message the user sent, To for one they received. */
  lemma OwnSideByRole(c: Conversation, stale: Option<Stale>, k: nat)
    requires OwnIdentity(c.clientData).Ok? && k < |c.messages|
    ensures var row := ConversationRows(c, stale).value.rows[k];
      var cd := c.clientData;
      var own := if cd["role"] == Text("Seller") then [cd["sellerName"], cd["userIdSeller"]]
                 else [cd["buyerName"], cd["userIdBuyer"]];
      (IsZero(c.messages[k].sender) ==> row[3..5] == own) &&
      (!IsZero(c.messages[k].sender) ==> row[5..7] == own)
  {
    OneRowPerMessage(c, stale);
    DirectionBySender(ContextOf(c), c.messages[k]);
    assert ConversationRows(c, stale).value.rows[k] == MessageRow(ContextOf(c), c.messages[k]);
  }

  /** The Attachment column gives back the image URLs, in order, as long as
      no URL holds ", " and the list is not the single URL "none". */
  lemma AttachmentRoundTrip(atts: seq<Attachment>)
    requires forall i :: 0 <= i < |atts| ==> NoSeparator(atts[i].imageURL)
    requires ImageURLs(atts) != ["none"]
    ensures URLsOf(AttachmentCell(atts)) == ImageURLs(atts)
  {
    if atts != [] {
      SplitJoin(ImageURLs(atts));
    }
  }

  /** Every row of a conversation carries its advertisement status, and
      "UNKNOWN" when the client data has none. */
  lemma AdStatusInEveryRow(c: Conversation, stale: Option<Stale>)
    requires OwnIdentity(c.clientData).Ok?
    ensures var rows := ConversationRows(c, stale).value.rows;
      forall k :: 0 <= k < |rows| ==> rows[k][10] == AdStatus(c.clientData)
    ensures "adStatus" !in c.clientData ==>
      forall row :: row in ConversationRows(c, stale).value.rows ==> row[10] == Text("UNKNOWN")
    ensures "adStatus" in c.clientData ==>
      forall row :: row in ConversationRows(c, stale).value.rows ==> row[10] == c.clientData["adStatus"]
  {
  }

  /** A conversation without messages yields at most one row, leaves the
      variables alone, and yields its row exactly when an earlier message
      bound them and the keys it reads are there with a numeric date. The row
      takes its attachment and message id from that earlier message. */
  lemma FallbackRowShape(c: Conversation, stale: Option<Stale>)
    requires c.messages == [] && OwnIdentity(c.clientData).Ok?
    ensures var st := ConversationRows(c, stale).value;
      var cd := c.clientData;
      st.stale == stale && |st.rows| <= 1 &&
      (|st.rows| == 1 <==>
        stale.Some? && "textShortTrimmed" in cd && "boundness" in cd &&
        "receivedDate" in cd && ShiftedTime(cd["receivedDate"]).Some?) &&
      (|st.rows| == 1 ==>
        |st.rows[0]| == |MessageHeaders| &&
        st.rows[0][2] == ShiftedTime(cd["receivedDate"]).value &&
        st.rows[0][7] == cd["textShortTrimmed"] &&
        st.rows[0][8] == stale.value.attachment && st.rows[0][9] == stale.value.messageId &&
        st.rows[0][0] == c.ad.displayTitle && st.rows[0][1] == c.ad.identifier &&
        st.rows[0][10] == AdStatus(cd) &&
        (cd["boundness"] == Text("OUTBOUND") ==>
          st.rows[0][3..7] == [ContextOf(c).me.name, ContextOf(c).me.identifier,
                               c.counterParty.name, c.counterParty.identifier]) &&
        (cd["boundness"] != Text("OUTBOUND") ==>
          st.rows[0][3..7] == [c.counterParty.name, c.counterParty.identifier,
                               ContextOf(c).me.name, ContextOf(c).me.identifier]))
  {
  }

  /** Every message of the conversations, in processing order. */
  function AllMessages(cs: seq<Conversation>): seq<Message>
  {
    if cs == [] then [] else AllMessages(cs[..|cs| - 1]) + cs[|cs| - 1].messages
  }

  /** The variables the fallback row reads hold the attachment and id of the
      last message of any earlier conversation, and are unbound when no
      earlier conversation had a message. */
  lemma {:induction false} StaleIsLastEarlierMessage(cs: seq<Conversation>)
    ensures AllMessages(cs) == [] ==> StaleThrough(cs) == None
    ensures AllMessages(cs) != [] ==>
      StaleThrough(cs) == Some(StaleAfter(AllMessages(cs)[|AllMessages(cs)| - 1]))
  {
    if cs != [] {
      StaleIsLastEarlierMessage(cs[..|cs| - 1]);
    }
  }

  /** So a conversation without messages that comes before any message
      yields no row at all. */
  lemma NoFallbackBeforeFirstMessage(cs: seq<Conversation>, c: Conversation)
    requires AllMessages(cs) == [] && c.messages == [] && OwnIdentity(c.clientData).Ok?
    ensures ConversationRows(c, StaleThrough(cs)).value.rows == []
  {
    StaleIsLastEarlierMessage(cs);
  }

  /** In the extractor's output, the fallback row of conversation i carries
      the attachment and message id of the last message of conversations
      0..i-1, whichever conversation that message belongs to. */
  lemma FallbackTakesLastEarlierMessage(cs: seq<Conversation>, i: nat)
    requires i < |cs| && cs[i].messages == [] && OwnIdentity(cs[i].clientData).Ok?
    ensures var rows := ConversationRows(cs[i], StaleThrough(cs[..i])).value.rows;
      var earlier := AllMessages(cs[..i]);
      |rows| == 1 ==>
        earlier != [] &&
        rows[0][8] == AttachmentCell(earlier[|earlier| - 1].attachments) &&
        rows[0][9] == earlier[|earlier| - 1].messageId
  {
    StaleIsLastEarlierMessage(cs[..i]);
    FallbackRowShape(cs[i], StaleThrough(cs[..i]));
  }

  function TotalMessages(cs: seq<Conversation>): nat
  {
    if cs == [] then 0 else |cs[0].messages| + TotalMessages(cs[1..])
  }

  function EmptyConversations(cs: seq<Conversation>): nat
  {
    if cs == [] then 0 else (if cs[0].messages == [] then 1 else 0) + EmptyConversations(cs[1..])
  }

  /** The cache yields rows exactly when every conversation has its identity
      keys; the rows are aligned with the headers, one per message plus at
      most one per conversation without messages. */
  lemma {:induction false} CacheRowsCount(cs: seq<Conversation>, stale: Option<Stale>)
    ensures CacheRowsFrom(cs, stale).Ok? <==> forall i :: 0 <= i < |cs| ==> OwnIdentity(cs[i].clientData).Ok?
    ensures CacheRowsFrom(cs, stale).Ok? ==>
      var rows := CacheRowsFrom(cs, stale).value;
      RowsAligned(rows) &&
      TotalMessages(cs) <= |rows| <= TotalMessages(cs) + EmptyConversations(cs)
    decreases |cs|
  {
    if cs != [] {
      var c := cs[0];
      if OwnIdentity(c.clientData).Ok? {
        var st := ConversationRows(c, stale).value;
        CacheRowsCount(cs[1..], st.stale);
        if c.messages == [] {
          FallbackRowShape(c, stale);
        } else {
          OneRowPerMessage(c, stale);
        }
        assert forall i :: 1 <= i < |cs| ==> cs[i] == cs[1..][i - 1];
      } else {
        assert !OwnIdentity(cs[0].clientData).Ok?;
      }
    }
  }
}
