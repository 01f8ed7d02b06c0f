/**
 * The `new_image_notify` webhook: called for a new `ImageGroups` row, it sends one
 * FCM notification per member of the group who has a token.
 */
module NewImageNotify {
  import opened Wrappers
  import opened Notify

  const KIND: string := "new_image"
  const TITLE_MIDDLE: string := " sent an image in group "
  const SENDER_FALLBACK: string := "Unknown"
  const DONE: string := "Notifications sent"

  /**
   * One invocation: the payload record's `image_id` and `group_id`, the outcome of
   * every database lookup, the FCM access token (None when the service account or
   * `getAccessToken` fails), and the outcome of the i-th request to FCM.
   */
  datatype ImageEvent = ImageEvent(
    imageId: string,
    groupId: string,
    group: Lookup<Option<string>>,
    image: Lookup<ImageRow>,
    sender: Lookup<Option<string>>,
    members: Lookup<seq<string>>,
    users: Lookup<seq<Option<string>>>,
    accessToken: Option<string>,
    fcm: nat -> SendResult)

  /** The notification title: the sender, " sent an image in group ", the group name. */
  function ImageTitle(sender: string, group: string): (title: string) {
    Template(sender, TITLE_MIDDLE, group)
  }

  /** `users.map(u => u.fcm_token).filter(t => !!t)`: the truthy tokens, in row order. */
  function ValidTokens(rows: seq<Option<string>>): (tokens: seq<string>)
    ensures |tokens| <= |rows|
    ensures forall i :: 0 <= i < |tokens| ==> tokens[i] != ""
    decreases |rows|
  {
    if rows == [] then []
    else
      var last := rows[|rows| - 1];
      ValidTokens(rows[..|rows| - 1]) + (if IsTruthy(last) then [last.value] else [])
  }

  /** The filter distributes over concatenation: order is kept. */
  lemma {:induction false} ValidTokensAppend(a: seq<Option<string>>, b: seq<Option<string>>)
    ensures ValidTokens(a + b) == ValidTokens(a) + ValidTokens(b)
    decreases |b|
  {
    if b == [] {
      assert a + b == a;
    } else {
      var n := |b| - 1;
      assert (a + b)[..|a + b| - 1] == a + b[..n];
      ValidTokensAppend(a, b[..n]);
    }
  }

  /** A token survives the filter exactly when some row holds it and it is not empty. */
  lemma {:induction false} ValidTokensMembership(rows: seq<Option<string>>, t: string)
    ensures t in ValidTokens(rows) <==> t != "" && Some(t) in rows
    decreases |rows|
  {
    if rows != [] {
      var n := |rows| - 1;
      ValidTokensMembership(rows[..n], t);
      assert rows == rows[..n] + [rows[n]];
    }
  }

  /** The message for one token. */
  function ImageMessage(token: string, sender: string, group: string, description: Option<string>, imageId: string, groupId: string): (m: Message) {
    Message(token, ImageTitle(sender, group), description, KIND, imageId, groupId)
  }

  /** The sender's name in the title: the username, or 'Unknown' when the lookup fails. */
  function SenderName(sender: Lookup<Option<string>>): (name: string) {
    if sender.Row? then Display(sender.value) else SENDER_FALLBACK
  }

  /** The messages of the send loop, one per valid token in order, all with the same title, body and data. */
  function Messages(tokens: seq<string>, sender: string, group: string, description: Option<string>, imageId: string, groupId: string): (msgs: seq<Message>)
    ensures |msgs| == |tokens|
    ensures forall i :: 0 <= i < |tokens| ==> msgs[i] == ImageMessage(tokens[i], sender, group, description, imageId, groupId)
    decreases |tokens|
  {
    if tokens == [] then []
    else
      var n := |tokens| - 1;
      Messages(tokens[..n], sender, group, description, imageId, groupId)
        + [ImageMessage(tokens[n], sender, group, description, imageId, groupId)]
  }

  /** The decision before the send loop: an early response, or the lookups made and the messages due. */
  datatype Plan = Stop(response: Response, lookups: seq<Table>) | Send(lookups: seq<Table>, messages: seq<Message>)

  /** The handler's early returns, in the order the handler checks them. */
  function ImagePlan(ev: ImageEvent): (plan: Plan) {
    if !ev.group.Row? then Stop(Empty(500), [Groups])
    else if !ev.image.Row? then Stop(Empty(500), [Groups, Images])
    else if ev.members.LookupError? then Stop(Empty(500), [Groups, Images, Users, Members])
    else if ev.members.NoRow? || |ev.members.value| == 0 then Stop(Empty(200), [Groups, Images, Users, Members])
    else if ev.users.LookupError? then Stop(Empty(500), [Groups, Images, Users, Members, Users])
    else if ev.users.NoRow? then Stop(CRASHED, [Groups, Images, Users, Members, Users])
    else if ValidTokens(ev.users.value) == [] then Stop(Empty(200), [Groups, Images, Users, Members, Users])
    else if ev.accessToken.None? then Stop(CRASHED, [Groups, Images, Users, Members, Users])
    else
      Send([Groups, Images, Users, Members, Users],
           Messages(ValidTokens(ev.users.value), SenderName(ev.sender), Display(ev.group.value),
                    ev.image.value.description, ev.imageId, ev.groupId))
  }

  /** The send loop runs exactly when every lookup it needs succeeded and there is a token to send to. */
  lemma SendsIff(ev: ImageEvent)
    ensures ImagePlan(ev).Send? <==>
              && ev.group.Row? && ev.image.Row?
              && ev.members.Row? && |ev.members.value| > 0
              && ev.users.Row? && ValidTokens(ev.users.value) != []
              && ev.accessToken.Some?
  {
  }

  /**
   * The early responses: 200 with no body exactly when there are no members or no
   * valid tokens; every other early stop is a 500.
   */
  lemma EarlyStatus(ev: ImageEvent)
    requires ImagePlan(ev).Stop?
    ensures ImagePlan(ev).response.status == 200 <==>
              && ev.group.Row? && ev.image.Row? && !ev.members.LookupError?
              && (ev.members.NoRow? || |ev.members.value| == 0
                  || (ev.users.Row? && ValidTokens(ev.users.value) == []))
    ensures ImagePlan(ev).response.status != 200 ==> ImagePlan(ev).response.status == 500
  {
  }

  /** One message per valid token, in order, each carrying the title, the description and the ids. */
  lemma PlanMessages(ev: ImageEvent)
    requires ImagePlan(ev).Send?
    ensures var tokens := ValidTokens(ev.users.value);
      var msgs := ImagePlan(ev).messages;
      && |msgs| == |tokens|
      && forall i :: 0 <= i < |msgs| ==>
           && msgs[i].token == tokens[i]
           && msgs[i].title == ImageTitle(SenderName(ev.sender), Display(ev.group.value))
           && msgs[i].body == ev.image.value.description
           && msgs[i].kind == KIND && msgs[i].imageId == ev.imageId && msgs[i].groupId == ev.groupId
  {
  }

  /** A failed sender lookup does not stop the handler: the titles name 'Unknown'. */
  lemma UnknownSender(ev: ImageEvent)
    requires ImagePlan(ev).Send? && !ev.sender.Row?
    ensures forall m :: m in ImagePlan(ev).messages ==> m.title[..|SENDER_FALLBACK|] == SENDER_FALLBACK
  {
  }

  /**
   * The lookups are made in handler order: the group first, then the image, then
   * the sender, the members and the members' tokens; each failure stops the lookups.
   */
  lemma ImageLookupOrder(ev: ImageEvent)
    ensures var l := ImagePlan(ev).lookups;
      && |l| >= 1 && l[0] == Groups
      && (!ev.group.Row? <==> l == [Groups])
      && (ev.group.Row? && !ev.image.Row? <==> l == [Groups, Images])
      && (ev.group.Row? && ev.image.Row? ==> |l| >= 4 && l[..4] == [Groups, Images, Users, Members])
      && (ImagePlan(ev).Send? ==> l == [Groups, Images, Users, Members, Users])
  {
  }

  /** The position of the first request that throws, or `n` when none of the first `n` does. */
  function FirstThrow(fcm: nat -> SendResult, from: nat, n: nat): (k: nat)
    requires from <= n
    ensures from <= k <= n
    ensures forall j :: from <= j < k ==> !fcm(j).SendThrew?
    ensures k < n ==> fcm(k).SendThrew?
    decreases n - from
  {
    if from == n || fcm(from).SendThrew? then from else FirstThrow(fcm, from + 1, n)
  }

  /**
   * The send loop: one request per message, in order. A not-ok answer is only
   * logged; a throw ends the loop after that request.
   */
  method SendAll(msgs: seq<Message>, fcm: nat -> SendResult) returns (sent: seq<Message>, threw: bool)
    ensures var k := FirstThrow(fcm, 0, |msgs|);
      && threw == (k < |msgs|)
      && sent == (if threw then msgs[..k + 1] else msgs)
  {
    sent := [];
    for i := 0 to |msgs|
      invariant sent == msgs[..i]
      invariant forall j :: 0 <= j < i ==> !fcm(j).SendThrew?
    {
      sent := sent + [msgs[i]];
      if fcm(i).SendThrew? {
        assert FirstThrow(fcm, 0, |msgs|) == i;
        return sent, true;
      }
    }
    assert sent == msgs;
    threw := false;
  }

  /**
   * The request handler: the early returns `ImagePlan` lists, then the send loop;
   * a throw in it ends the handler with Deno's 500, a full loop answers
   * "Notifications sent".
   */
  method HandleNewImage(ev: ImageEvent) returns (out: Outcome)
    ensures ImagePlan(ev).Stop? ==> out == Outcome(ImagePlan(ev).response, ImagePlan(ev).lookups, [])
    ensures ImagePlan(ev).Send? ==>
              var msgs := ImagePlan(ev).messages;
              var k := FirstThrow(ev.fcm, 0, |msgs|);
              && out.lookups == ImagePlan(ev).lookups
              && out.sent == (if k < |msgs| then msgs[..k + 1] else msgs)
              && out.response == (if k < |msgs| then CRASHED else Response(200, JsonMessage(DONE)))
  {
    var lookups := [Groups];
    if !ev.group.Row? {
      return Outcome(Empty(500), lookups, []);
    }
    var groupName := Display(ev.group.value);
    lookups := lookups + [Images];
    if !ev.image.Row? {
      return Outcome(Empty(500), lookups, []);
    }
    var imageDescription := ev.image.value.description;
    lookups := lookups + [Users];
    var senderUsername := SENDER_FALLBACK;
    if ev.sender.Row? {
      senderUsername := Display(ev.sender.value);
    }
    lookups := lookups + [Members];
    if ev.members.LookupError? {
      return Outcome(Empty(500), lookups, []);
    }
    if ev.members.NoRow? || |ev.members.value| == 0 {
      return Outcome(Empty(200), lookups, []);
    }
    lookups := lookups + [Users];
    if ev.users.LookupError? {
      return Outcome(Empty(500), lookups, []);
    }
    if ev.users.NoRow? {
      return Outcome(CRASHED, lookups, []);
    }
    var fcmTokens := ValidTokens(ev.users.value);
    if |fcmTokens| == 0 {
      return Outcome(Empty(200), lookups, []);
    }
    if ev.accessToken.None? {
      return Outcome(CRASHED, lookups, []);
    }
    var messages := Messages(fcmTokens, senderUsername, groupName, imageDescription, ev.imageId, ev.groupId);
    var sent, threw := SendAll(messages, ev.fcm);
    if threw {
      return Outcome(CRASHED, lookups, sent);
    }
    out := Outcome(Response(200, JsonMessage(DONE)), lookups, sent);
  }
}
