/**
 * The LLM service's tables: conversations and their messages, prompt
 * templates, document-processing records and usage logs.
 *
 * JSON columns (`context`, `variables`, `model_config`, `input_data`,
 * `output_data`) are kept as maps from key to the value's JSON text, or as
 * the text itself; nothing in the modelled logic looks inside them.
 */
module LlmModels {
  import opened Common

  /** A JSON object column. */
  type Config = map<string, string>

  datatype Conversation = Conversation(
    id: Id, userId: Id, title: Option<string>, context: Config, createdAt: Time, updatedAt: Time)

  /** A message; `role` is 'user', 'assistant' or 'system' by convention, but the column takes any string. */
  datatype Message = Message(id: Id, conversationId: Id, role: string, content: string, createdAt: Time)

  datatype ConversationDict = ConversationDict(
    id: Id, userId: Id, title: Option<string>, context: Config, createdAt: Time, updatedAt: Time,
    messageCount: nat, messages: Option<seq<Message>>)

  function MessageCreatedAt(m: Message): int { m.createdAt }

  function ConversationUpdatedAt(c: Conversation): int { c.updatedAt }

  predicate InConversation(m: Message, convId: Id) { m.conversationId == convId }

  /** The `Conversation.messages` relationship of conversation `convId`, in table order. */
  function MessagesOf(msgs: seq<Message>, convId: Id): (r: seq<Message>)
    ensures forall k :: 0 <= k < |r| ==> r[k].conversationId == convId
    ensures forall m :: m in msgs && m.conversationId == convId ==> m in r
    ensures multiset(r) <= multiset(msgs)
  {
    Filter(msgs, (m: Message) => InConversation(m, convId))
  }

  /** `Conversation.to_dict(include_messages)`. */
  function ConversationToDict(c: Conversation, msgs: seq<Message>, includeMessages: bool): (r: ConversationDict)
    ensures r.messageCount == |MessagesOf(msgs, c.id)|
    ensures r.messages.Some? <==> includeMessages
    ensures r.messages.Some? ==>
      |r.messages.value| == r.messageCount && forall k :: 0 <= k < |r.messages.value| ==> r.messages.value[k].conversationId == c.id
    ensures r.messages.Some? ==> r.messages.value == MessagesOf(msgs, c.id)
    ensures r.id == c.id && r.userId == c.userId && r.title == c.title && r.updatedAt == c.updatedAt
    ensures r.context == c.context && r.createdAt == c.createdAt
  {
    var own := MessagesOf(msgs, c.id);
    ConversationDict(c.id, c.userId, c.title, c.context, c.createdAt, c.updatedAt, |own|,
                     if includeMessages then Some(own) else None)
  }

  /**
   * `Conversation.get_recent_messages(limit)`: the conversation's messages,
   * newest first, at most `limit` of them; no message left out is newer
   * than one returned.
   */
  function GetRecentMessages(msgs: seq<Message>, convId: Id, limit: nat): (r: seq<Message>)
    ensures |r| == if limit < |MessagesOf(msgs, convId)| then limit else |MessagesOf(msgs, convId)|
    ensures forall k :: 0 <= k < |r| ==> r[k].conversationId == convId
    ensures SortedDesc(r, MessageCreatedAt)
    ensures multiset(r) <= multiset(MessagesOf(msgs, convId))
    ensures forall m, k :: m in multiset(MessagesOf(msgs, convId)) - multiset(r) && 0 <= k < |r| ==>
      m.createdAt <= r[k].createdAt
  {
    TopN(MessagesOf(msgs, convId), limit, MessageCreatedAt)
  }

  // ---------------------------------------------------------------- templates

  /** A prompt template; `name` is unique across the table and `created_by` may not be null. */
  datatype PromptTemplate = PromptTemplate(
    id: Id, name: string, description: Option<string>, template: string,
    variables: Config, modelConfig: Config, createdBy: string, createdAt: Time, updatedAt: Time)

  ghost predicate TemplatesUnique(ts: seq<PromptTemplate>)
  {
    forall i, j :: 0 <= i < j < |ts| ==> ts[i].id != ts[j].id && ts[i].name != ts[j].name
  }

  // ------------------------------------------------------------ usage logs

  /** A usage log; `cost` and `response_time` are floating point and not modelled. */
  datatype UsageLog = UsageLog(
    id: Id, userId: Id, conversationId: Option<Id>, modelName: string, operationType: string,
    promptTokens: int, completionTokens: int, totalTokens: int, createdAt: Time)

  // ------------------------------------------------- document processing

  const PENDING := "pending"
  const COMPLETED := "completed"
  const FAILED := "failed"

  /** A document-processing record; its identifying columns are fixed, its outcome columns are updated in place. */
  class DocumentProcessing {
    const id: Id
    const userId: Id
    const documentName: string
    const documentType: string
    const processingType: string
    const inputData: string
    const createdAt: Time
    var status: string
    var outputData: Option<string>
    var errorMessage: Option<string>
    var processingTime: Option<real>
    var completedAt: Option<Time>

    /** A new record: the column default makes its status 'pending'. */
    constructor (id: Id, userId: Id, documentName: string, documentType: string, processingType: string,
                 inputData: string, now: Time)
      ensures status == PENDING
      ensures outputData.None? && errorMessage.None? && processingTime.None? && completedAt.None?
      ensures this.id == id && this.userId == userId && this.documentName == documentName
      ensures this.documentType == documentType && this.processingType == processingType
      ensures this.inputData == inputData && createdAt == now
    {
      this.id := id;
      this.userId := userId;
      this.documentName := documentName;
      this.documentType := documentType;
      this.processingType := processingType;
      this.inputData := inputData;
      createdAt := now;
      status := PENDING;
      outputData := None;
      errorMessage := None;
      processingTime := None;
      completedAt := None;
    }

    /** `mark_completed`: records the output; an earlier error message stays. */
    method MarkCompleted(output: string, seconds: real, now: Time)
      modifies this
      ensures status == COMPLETED && outputData == Some(output) && processingTime == Some(seconds)
      ensures completedAt == Some(now)
      ensures errorMessage == old(errorMessage)
    {
      status := COMPLETED;
      outputData := Some(output);
      processingTime := Some(seconds);
      completedAt := Some(now);
    }

    /** `mark_failed`: records the error; an earlier output and processing time stay. */
    method MarkFailed(message: string, now: Time)
      modifies this
      ensures status == FAILED && errorMessage == Some(message) && completedAt == Some(now)
      ensures outputData == old(outputData) && processingTime == old(processingTime)
    {
      status := FAILED;
      errorMessage := Some(message);
      completedAt := Some(now);
    }
  }
}
