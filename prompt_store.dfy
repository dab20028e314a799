/** The prompt store of db.py: a local JSON record that always wins on read,
    a table of prompt rows in creation order, and the built-in default prompt.
    Reads try the local record, then the newest row, then the default; a save
    appends a row when the database accepts it and overwrites the local record. */
module PromptStore {
  import opened Wrappers

  /** The prompt every tier falls back to (db.py:11-25). */
  const DEFAULT_PROMPT: string :=
    "You are a professional, friendly, and human-like immigration consultant for Thailand named Alex. \n" +
    "Your goal is to assist clients with the Destination Thailand Visa (DTV).\n" +
    "You must sound natural, confident, and concise. \n" +
    "Avoid robotic greetings or overly formal legal language. \n" +
    "Never mention that you are an AI or a language model.\n" +
    "If you need more information to give a good answer, ask clarifying questions naturally.\n" +
    "Keep your responses relatively short and conversational, like a real person chatting.\n" +
    "\n" +
    "Input:\n" +
    "- Client's recent messages\n" +
    "- Chat history\n" +
    "\n" +
    "Output:\n" +
    "- A JSON object with a single key \"reply\" containing your text response.\n"

  /** The local record `local_prompts.json`: missing, present but unreadable or
      not a JSON object, or a parsed object with its string fields. */
  datatype LocalRecord = Absent | Unreadable | Parsed(doc: map<string, string>)

  /** What connecting to the database gives: no `DATABASE_URL`, a failing
      connect, a connection whose statements fail, or a working database. */
  datatype DbState = NoUrl | ConnectFails | QueryFails | Ready

  /** One row of `system_prompts`. */
  datatype Row = Row(promptText: string, source: string)

  /** `dict.get(key, default)`. */
  function Lookup(doc: map<string, string>, key: string, default: string): (v: string)
    ensures key in doc ==> v == doc[key]
    ensures key !in doc ==> v == default
  {
    if key in doc then doc[key] else default
  }

  /** `get_db_connection`: a connection object, or `None` when `DATABASE_URL`
      is unset or connecting raises. A connection is handed out even when its
      statements will fail. */
  predicate GetDbConnection(db: DbState): (connected: bool)
    ensures db == NoUrl || db == ConnectFails ==> !connected
    ensures db == QueryFails || db == Ready ==> connected
  {
    db == QueryFails || db == Ready
  }

  /** The document `save_new_prompt` writes to the local record. */
  function LocalDoc(promptText: string, source: string): map<string, string> {
    map["prompt_text" := promptText, "source" := source, "updated_at" := "now"]
  }

  /** The local tier: a parsed record answers (with its `prompt_text`, or
      `fallback` when that key is missing); anything else passes to the next tier. */
  function LocalTier(local: LocalRecord, fallback: string): Option<string> {
    match local
    case Parsed(doc) => Some(Lookup(doc, "prompt_text", fallback))
    case _ => None
  }

  /** The database tier: the newest row, when there is a connection, the
      query succeeds and the table is not empty. */
  function DatabaseTier(db: DbState, rows: seq<Row>): Option<string> {
    if !GetDbConnection(db) || db == QueryFails || rows == [] then None
    else Some(rows[|rows| - 1].promptText)
  }

  class Store {
    /** The prompt reads fall back to: `DEFAULT_PROMPT`, set once by the
        constructor (see `Valid`). */
    const fallback: string
    var local: LocalRecord
    /** Whether writing the local record succeeds. */
    var localWritable: bool
    var db: DbState
    /** The rows of `system_prompts`, oldest first. */
    var rows: seq<Row>

    constructor (local: LocalRecord, localWritable: bool, db: DbState, rows: seq<Row>)
      ensures this.local == local && this.localWritable == localWritable
      ensures this.db == db && this.rows == rows
      ensures Valid()
    {
      fallback := DEFAULT_PROMPT;
      this.local := local;
      this.localWritable := localWritable;
      this.db := db;
      this.rows := rows;
    }

    /** Every store falls back to `DEFAULT_PROMPT`: the constructor sets
        `fallback` to it and no method can change a `const` field. */
    ghost predicate Valid()
      reads this
    {
      fallback == DEFAULT_PROMPT
    }

    /** `get_active_prompt`: a parsed local record short-circuits the database,
        even one without `prompt_text`; otherwise the newest row; otherwise the
        default. No failure in either tier is raised. */
    function GetActivePrompt(): (r: string)
      reads this
      ensures local.Parsed? ==> r == Lookup(local.doc, "prompt_text", fallback)
      ensures !local.Parsed? && db == Ready && rows != [] ==> r == rows[|rows| - 1].promptText
      ensures !local.Parsed? && (db != Ready || rows == []) ==> r == fallback
    {
      match LocalTier(local, fallback)
      case Some(pt) => pt
      case None => DatabaseTier(db, rows).GetOr(fallback)
    }

    /** The effect of one `save_new_prompt(promptText, source)`: one new row when
        the database works, the local record overwritten when it is writable,
        and nothing else changed. */
    twostate predicate SavedAs(promptText: string, source: string)
      reads this
    {
      && db == old(db) && localWritable == old(localWritable)
      && rows == old(rows) + (if old(db) == Ready then [Row(promptText, source)] else [])
      && local == (if old(localWritable) then Parsed(LocalDoc(promptText, source)) else old(local))
    }

    /** What a save does to later reads: the saved text is read back when the
        local record was rewritten, or when there is no parsed local record and
        the row went into a working database; otherwise reads answer as before
        the save (a stale local record hides every later save). */
    twostate predicate ReadsAfterSave(promptText: string)
      reads this
    {
      && (localWritable || (!local.Parsed? && db == Ready) ==> GetActivePrompt() == promptText)
      && (!localWritable && (local.Parsed? || db != Ready) ==> GetActivePrompt() == old(GetActivePrompt()))
    }

    /** `save_new_prompt`: insert a row when connected (a failing insert is only
        logged), then overwrite the local record. Returns nothing. */
    method SaveNewPrompt(promptText: string, source: string := "auto")
      modifies this
      ensures SavedAs(promptText, source) && ReadsAfterSave(promptText)
      ensures old(rows) <= rows
    {
      var saved := false;
      // 1. Try the database.
      if GetDbConnection(db) {
        if db == Ready {
          rows := rows + [Row(promptText, source)];
          saved := true;
        }
      }
      // 2. Save to the local record.
      if localWritable {
        local := Parsed(LocalDoc(promptText, source));
        saved := true;
      }
    }
  }

  /** The local record is a hard override: it answers even when the database
      holds other, newer rows. */
  lemma LocalOverridesDatabase(s: Store, doc: map<string, string>)
    requires s.local == Parsed(doc) && "prompt_text" in doc
    requires s.db == Ready && s.rows != [] && s.rows[|s.rows| - 1].promptText != doc["prompt_text"]
    ensures s.GetActivePrompt() == doc["prompt_text"] != s.rows[|s.rows| - 1].promptText
  {
  }

  /** With no parsed local record and no row to read (database unusable or
      table empty), every store answers with `DEFAULT_PROMPT`. */
  lemma DefaultWhenNoTier(s: Store)
    requires s.Valid()
    requires !s.local.Parsed? && (s.db != Ready || s.rows == [])
    ensures s.GetActivePrompt() == DEFAULT_PROMPT
  {
  }

  /** A parsed local record without `prompt_text` still short-circuits the
      database: the answer is `DEFAULT_PROMPT`, whatever the rows hold. */
  lemma MissingKeyGivesDefault(s: Store, doc: map<string, string>)
    requires s.Valid()
    requires s.local == Parsed(doc) && "prompt_text" !in doc
    ensures s.GetActivePrompt() == DEFAULT_PROMPT
  {
  }

  /** Two saves in a row: both rows are appended in order, and the later text is active. */
  method SaveTwice(s: Store, first: string, second: string, source: string)
    requires s.db == Ready && s.localWritable
    modifies s
    ensures s.rows == old(s.rows) + [Row(first, source), Row(second, source)]
    ensures s.GetActivePrompt() == second
  {
    s.SaveNewPrompt(first, source);
    s.SaveNewPrompt(second, source);
  }
}
