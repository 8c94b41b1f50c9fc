/**
 * The request body of a Bedrock `InvokeModel` call on an Anthropic model (the Messages API), as
 * both payload builders write it: one user message whose content the caller supplies.
 */
module InvokeModel {
  import opened Wrappers
  import opened Json

  const ANTHROPIC_VERSION := "bedrock-2023-05-31"
  const MAX_TOKENS := 20000
  const USER_ROLE := "user"

  /** `{"anthropic_version": ..., "max_tokens": 20000, "messages": [{"content": c, "role": "user"}]}`. */
  function UserRequest(content: Json): Json
  {
    Obj(map[
      "anthropic_version" := Str(ANTHROPIC_VERSION),
      "max_tokens" := Num(MAX_TOKENS),
      "messages" := Arr([Obj(map["content" := content, "role" := Str(USER_ROLE)])])])
  }

  /**
   * A request of that shape: exactly the three members, the fixed version and token limit, and
   * a single message sent by the user.
   */
  predicate IsUserRequest(j: Json)
  {
    && j.Obj? && j.fields.Keys == {"anthropic_version", "max_tokens", "messages"}
    && j.fields["anthropic_version"] == Str(ANTHROPIC_VERSION)
    && j.fields["max_tokens"] == Num(MAX_TOKENS)
    && j.fields["messages"].Arr? && |j.fields["messages"].items| == 1
    && var m := j.fields["messages"].items[0];
       m.Obj? && m.fields.Keys == {"content", "role"} && m.fields["role"] == Str(USER_ROLE)
  }

  /** What a reader of such a request finds as the message content. */
  function MessageContent(j: Json): Option<Json>
  {
    if IsUserRequest(j) then Some(j.fields["messages"].items[0].fields["content"]) else None
  }

  /** Every request built is of the expected shape and carries exactly the content given. */
  lemma UserRequestRoundTrip(content: Json)
    ensures IsUserRequest(UserRequest(content))
    ensures MessageContent(UserRequest(content)) == Some(content)
  {
    var m := map["content" := content, "role" := Str(USER_ROLE)];
    assert m.Keys == {"content", "role"};
    var j := UserRequest(content);
    assert j.fields.Keys == {"anthropic_version", "max_tokens", "messages"};
  }

  /** Requests of this shape are equal exactly when their contents are. */
  lemma UserRequestInjective(c1: Json, c2: Json)
    ensures UserRequest(c1) == UserRequest(c2) <==> c1 == c2
  {
    UserRequestRoundTrip(c1);
    UserRequestRoundTrip(c2);
  }
}
