/** The post form: its submit gate, the row it inserts, and how a completed
    insert resets or keeps the content and the attached media URL. */
module TweetForm {
  import opened Outcomes

  /** The form's `maxLength` rule and the counter's bound, in UTF-16 code units. */
  const MaxLength := 280

  /** The submit button's `disabled` expression. The button is enabled
      exactly when no submission is in progress and the content passes the
      form's rules: the two gates agree. */
  predicate SubmitDisabled(isSubmitting: bool, content: Text): (disabled: bool)
    ensures !disabled <==> !isSubmitting && PassesRules(content)
  {
    isSubmitting || |content| == 0 || |content| > MaxLength
  }

  /** The form library's rules `{ required: true, maxLength: 280 }`: the submit
      handler only reaches `onSubmit` when they hold, so every post inserted
      has between 1 and 280 code units. */
  predicate PassesRules(content: Text): (ok: bool)
    ensures ok ==> forall u: User, m: Option<string> :: 1 <= |NewTweetRow(u, content, m).content| <= MaxLength
  {
    content != [] && |content| <= MaxLength
  }

  /** The row handed to the `tweets` insert. */
  datatype TweetInsert = TweetInsert(userId: string, content: Text, mediaUrl: Option<seq<string>>)

  /** `{ user_id: user.id, content, media_url: mediaUrl ? [mediaUrl] : null }`:
      the content travels unchanged, and an empty media URL is falsy. */
  function NewTweetRow(user: User, content: Text, mediaUrl: Option<string>): (row: TweetInsert)
    ensures row.userId == user.id && row.content == content
    ensures row.mediaUrl.Some? <==> Truthy(mediaUrl)
    ensures row.mediaUrl.Some? ==> row.mediaUrl.value == [mediaUrl.value]
  {
    TweetInsert(user.id, content, if Truthy(mediaUrl) then Some([mediaUrl.value]) else None)
  }

  /** `if (error) throw error`: the insert failed if it was rejected or
      returned an error. */
  predicate InsertSucceeded(reply: Reply<()>) {
    reply.Resolved? && reply.error.None?
  }

  /** A non-empty media URL is sent as a one-element list; no URL, and the
      empty URL, which is falsy, are sent as null. */
  lemma MediaUrlWrapped(user: User, content: Text, url: string)
    ensures url != "" ==> NewTweetRow(user, content, Some(url)).mediaUrl == Some([url])
    ensures NewTweetRow(user, content, Some("")).mediaUrl == None
    ensures NewTweetRow(user, content, None).mediaUrl == None
  {
  }

  class TweetForm {
    /** The textarea's value. */
    var content: Text
    var isSubmitting: bool
    var mediaUrl: Option<string>

    constructor ()
      ensures content == [] && !isSubmitting && mediaUrl == None
    {
      content, isSubmitting, mediaUrl := [], false, None;
    }

    function ButtonDisabled(): bool
      reads this
    {
      SubmitDisabled(isSubmitting, content)
    }

    /** `handleSubmit(onSubmit)` with the awaited insert's outcome. With content
        that fails the rules, or no user, nothing is inserted and nothing
        changes. Otherwise the row is inserted; on success the content is
        reset, the media URL dropped and `onTweetCreated` called once; on
        failure both are kept and the callback is not called. */
    method Submit(user: Option<User>, reply: Reply<()>) returns (insert: Option<TweetInsert>, notified: bool, toast: Option<Toast>)
      modifies this
      ensures insert == if PassesRules(old(content)) && user.Some?
                        then Some(NewTweetRow(user.value, old(content), old(mediaUrl))) else None
      ensures notified <==> insert.Some? && InsertSucceeded(reply)
      ensures notified ==> content == [] && mediaUrl == None && toast == Some(SuccessToast("Echo posted!"))
      ensures !notified ==> content == old(content) && mediaUrl == old(mediaUrl)
      ensures insert.Some? && !notified ==> toast == Some(ErrorToast("Failed to post echo"))
      ensures insert.Some? ==> !isSubmitting
      ensures insert.None? ==> isSubmitting == old(isSubmitting) && toast == None
    {
      insert, notified, toast := None, false, None;
      if !PassesRules(content) || user.None? {
        return;
      }
      isSubmitting := true;
      insert := Some(NewTweetRow(user.value, content, mediaUrl));
      if InsertSucceeded(reply) {
        toast := Some(SuccessToast("Echo posted!"));
        content := [];
        mediaUrl := None;
        notified := true;
      } else {
        toast := Some(ErrorToast("Failed to post echo"));
      }
      isSubmitting := false;
    }

    /** `handleEmojiSelect`: appends the emoji, with no length check. */
    method SelectEmoji(emoji: Text)
      modifies this
      ensures content == old(content) + emoji
      ensures isSubmitting == old(isSubmitting) && mediaUrl == old(mediaUrl)
    {
      content := content + emoji;
    }

    /** The media upload's `onUploadComplete`, which is `setMediaUrl`. */
    method UploadComplete(url: string)
      modifies this
      ensures mediaUrl == Some(url)
      ensures content == old(content) && isSubmitting == old(isSubmitting)
    {
      mediaUrl := Some(url);
    }

    /** The preview's remove button. */
    method RemovePreview()
      modifies this
      ensures mediaUrl == None
      ensures content == old(content) && isSubmitting == old(isSubmitting)
    {
      mediaUrl := None;
    }
  }

  /** An emoji can push the content past the limit, which then disables the
      button and makes the form's rules refuse a submit. */
  lemma EmojiCanOverflow(content: Text, emoji: Text)
    requires |content| == MaxLength && emoji != []
    ensures SubmitDisabled(false, content + emoji) && !PassesRules(content + emoji)
  {
  }
}
