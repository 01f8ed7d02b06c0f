/**
 * The `new_comment_notify` webhook: called for a new `Comments` row, it sends one
 * FCM notification to the uploader of the commented image.
 */
module NewCommentNotify {
  import opened Wrappers
  import opened Notify

  const TABLE: string := "Comments"
  const INSERT: string := "INSERT"
  const KIND: string := "new_comment"
  const TITLE_MIDDLE: string := " commented on your image in "
  const COMMENTER_FALLBACK: string := "Someone"
  const GROUP_FALLBACK: string := "your group"
  const DONE: string := "Notification sent"

  /** The inserted `Comments` row, as far as the handler reads it. */
  datatype Comment = Comment(userId: string, imageId: string, groupId: string, text: string)

  /**
   * One invocation: the payload's `table`, `type` and record, the outcome of every
   * lookup (usernames, the uploader's `fcm_token` and the group name are nullable
   * columns), the FCM access token (None when the service account import or
   * `getAccessToken` fails), and the outcome of the request to FCM.
   */
  datatype CommentEvent = CommentEvent(
    table: string,
    kind: string,
    comment: Comment,
    image: Lookup<ImageRow>,
    commenter: Lookup<Option<string>>,
    uploader: Lookup<Option<string>>,
    group: Lookup<Option<string>>,
    accessToken: Option<string>,
    send: SendResult)

  /** The notification title: the commenter, " commented on your image in ", the group name. */
  function CommentTitle(commenter: string, group: string): (title: string) {
    Template(commenter, TITLE_MIDDLE, group)
  }

  predicate IsCommentInsert(ev: CommentEvent) {
    ev.table == TABLE && ev.kind == INSERT
  }

  /** The handler reaches the send: the image is found, the uploader has a token, and credentials were obtained. */
  predicate Reaches(ev: CommentEvent) {
    IsCommentInsert(ev) && ev.image.Row? && ev.uploader.Row? && IsTruthy(ev.uploader.value) && ev.accessToken.Some?
  }

  function CommenterName(commenter: Lookup<Option<string>>): (name: string) {
    if commenter.Row? then Display(commenter.value) else COMMENTER_FALLBACK
  }

  function GroupName(group: Lookup<Option<string>>): (name: string) {
    if group.Row? then Display(group.value) else GROUP_FALLBACK
  }

  /** The one message: to the uploader's token, with the title, the comment text and the ids. */
  function CommentMessage(ev: CommentEvent): (m: Message)
    requires ev.uploader.Row? && ev.uploader.value.Some?
  {
    Message(ev.uploader.value.value, CommentTitle(CommenterName(ev.commenter), GroupName(ev.group)),
            Some(ev.comment.text), KIND, ev.comment.imageId, ev.comment.groupId)
  }

  /**
   * The request handler. Every exception inside it is caught and answered with an
   * empty 500, so the credentials failure and a throwing send end that way too.
   */
  function HandleNewComment(ev: CommentEvent): (out: Outcome)
    ensures |out.sent| <= 1
    ensures out.sent != [] <==> Reaches(ev)
    ensures Reaches(ev) ==> out.sent == [CommentMessage(ev)]
    ensures !IsCommentInsert(ev) ==> out == Outcome(Empty(200), [], [])
    ensures out.response.status == 200 <==>
              || !IsCommentInsert(ev)
              || (ev.image.Row? && !(ev.uploader.Row? && IsTruthy(ev.uploader.value)))
              || (Reaches(ev) && ev.send.SendOk?)
    ensures out.response.status != 200 ==> out.response == Empty(500)
    ensures out.response.body.JsonMessage? <==> Reaches(ev) && ev.send.SendOk?
    ensures out.response.body.JsonMessage? ==> out.response == Response(200, JsonMessage(DONE))
  {
    if !IsCommentInsert(ev) then Outcome(Empty(200), [], [])
    else if !ev.image.Row? then Outcome(Empty(500), [Images], [])
    else
      var lookups := [Images, Users, Users];
      if !ev.uploader.Row? || !IsTruthy(ev.uploader.value) then Outcome(Empty(200), lookups, [])
      else
        var lookups := lookups + [Groups];
        if ev.accessToken.None? then Outcome(Empty(500), lookups, [])
        else
          var message := CommentMessage(ev);
          match ev.send
          case SendOk => Outcome(Response(200, JsonMessage(DONE)), lookups, [message])
          case SendNotOk => Outcome(Empty(500), lookups, [message])
          case SendThrew => Outcome(Empty(500), lookups, [message])
  }

  /** Failed name lookups only change the title: 'Someone' and 'your group'. */
  lemma NameFallbacks(ev: CommentEvent)
    requires Reaches(ev) && !ev.commenter.Row? && !ev.group.Row?
    ensures HandleNewComment(ev).sent[0].title == CommentTitle(COMMENTER_FALLBACK, GROUP_FALLBACK)
  {
  }

  /** The lookups are made in handler order, and none for a payload that is not a comment insert. */
  lemma LookupOrder(ev: CommentEvent)
    ensures var l := HandleNewComment(ev).lookups;
      && (l == [] <==> !IsCommentInsert(ev))
      && (l != [] ==> l[0] == Images)
      && (|l| > 1 ==> l[1..3] == [Users, Users])
      && (Reaches(ev) ==> l == [Images, Users, Users, Groups])
  {
  }
}
