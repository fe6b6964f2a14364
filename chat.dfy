/**
 * The transcript entities shared by the chat hook, the message mapper,
 * the session store and the sidebar: roles, todo items, message metadata
 * and chat messages.
 */
module Chat {
  import opened Wrappers
  import Json

  datatype Role =
    | User | Assistant | Plan | Thought | Status | Action
    | Observation | Error | Info | ChartRole | TaskList

  datatype TaskStatus = Pending | InProgress | Completed | Failed

  datatype TodoItem = TodoItem(
    id: string,
    content: string,
    status: TaskStatus,
    activeForm: Option<string>,
    result: Option<string>,
    error: Option<string>)

  /** The optional `metadata` of a message; a field that is `None` is absent. */
  datatype Metadata = Metadata(
    toolName: Option<Json.Json>,
    toolInput: Option<Json.Json>,
    tasks: Option<seq<TodoItem>>,
    taskTitle: Option<string>,
    taskObjective: Option<string>,
    retryCount: Option<nat>,
    maxRetries: Option<nat>,
    errorType: Option<string>,
    finalError: Option<bool>)

  const NoMetadata := Metadata(None, None, None, None, None, None, None, None, None)

  datatype ChatMessage = ChatMessage(
    id: string,
    role: Role,
    content: string,
    timestamp: string,
    metadata: Option<Metadata>,
    streaming: bool)

  /**
   * A message as the mapper produces it (`Partial<ChatMessage>` without id
   * and timestamp); `streaming` is false where the key is absent.
   */
  datatype UiMessage = UiMessage(role: Role, content: string, metadata: Option<Metadata>, streaming: bool)

  /** `{ ...ui, id, timestamp }`: a mapped message turned into a transcript entry. */
  function Entry(ui: UiMessage, id: string, timestamp: string): ChatMessage
  {
    ChatMessage(id, ui.role, ui.content, timestamp, ui.metadata, ui.streaming)
  }
}
