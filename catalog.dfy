/** The static data of the actions: the help catalog `DATA_HELP` and the two
    ignore lists `IGNORED_TABLES` and `IGNORED_COLUMNS`. */
module Catalog {
  import opened Wrappers

  /** The descriptions of one table. In the catalog's dictionary the key
      `None` holds the description of the table as a whole and each column
      name the description of that column; here the whole-table entry is a
      field of its own, so every table has one. */
  datatype TableHelp = TableHelp(table: string, columns: map<string, string>) {

    /** `key in DATA_HELP[t]`: `None` is always present, a column when it is described. */
    predicate Has(key: Option<string>) {
      key.None? || key.value in columns
    }

    /** `DATA_HELP[t][key]`. */
    function Get(key: Option<string>): string
      requires Has(key)
    {
      match key
      case None => table
      case Some(c) => columns[c]
    }
  }

  /** A help catalog: table name to the descriptions of that table. */
  type HelpCatalog = map<string, TableHelp>

  /** `DATA_HELP`, the application's catalog. */
  const DataHelp: HelpCatalog := map[
    "auth" := AuthHelp,
    "chat" := ChatHelp,
    "document" := DocumentHelp,
    "file" := FileHelp,
    "model" := ModelHelp,
    "prompt" := PromptHelp,
    "user" := UserHelp
  ]

  /** The tables `DATA_HELP` describes, in the order the dictionary lists them. */
  const CatalogTables: seq<string> := ["auth", "chat", "document", "file", "model", "prompt", "user"]

  /** The catalog describes exactly the seven tables of `CatalogTables`. */
  lemma DataHelpTables()
    ensures forall t :: t in DataHelp <==> t in CatalogTables
  {
  }

  /** The descriptions of table "auth". */
  const AuthHelp := TableHelp(
    "Authorized users of the Fury.AI AI chat user interface",
    map[
      "id" := "This is the primary key for a authorized user.",
      "email" := "This is the email of the authorized user.",
      "password" := "This is the hashed password of the user.",
      "active" := "This indicates weather the user is an active user to the frontend interface."
    ])

  /** The descriptions of table "chat". */
  const ChatHelp := TableHelp(
    "This table stores all the chats of users with large language models.",
    map[
      "id" := "The id of the chat.",
      "user_id" := "The user id of the user who owns the chat.",
      "title" := "The title of the conversation the user is having with the LLM.",
      "chat" := "This includes the entire chat history between the user and the LLM. The values here are represented in a JSON string with various information of the model and user.",
      "share_id" := "This is the id of another user who has been shared this chat.",
      "archived" := "This includes information of if the chat has been archived.",
      "created_at" := "This is when the chat was created.",
      "updated_at" := "This is when the chat was updated."
    ])

  /** The descriptions of table "document". */
  const DocumentHelp := TableHelp(
    "This table shows the documents that have been stored on Fury.AI used by LLMs for RAG.",
    map[
      "id" := "This is the primary key in the table for the document tuple.",
      "collection_name" := "This is the collection id where the document is stored. Each document is placed in it's own collection.",
      "name" := "This is the name of the document.",
      "title" := "This is the title of the document.",
      "filename" := "This is the file name of the document.",
      "content" := "This is always NULL.",
      "user_id" := "This is the id if the user that uploaded the document.",
      "timestamp" := "This is the timestamp of when the document was uploaded."
    ])

  /** The descriptions of table "file". */
  const FileHelp := TableHelp(
    "This table holds records of files users have uploaded to a chat with a LLM.",
    map[
      "id" := "This is the primary key for the table.",
      "user_id" := "This is the id of the user who uploaded the file to one of their chats with a LLM.",
      "filename" := "This is the filename of the uploaded document,",
      "meta" := "This is metadata for the file uploaded which includes the name of the file, the file type, the size, and the path where the file is stored.",
      "created_at" := "This is the time when the file was uploaded in integer format."
    ])

  /** The descriptions of table "model". */
  const ModelHelp := TableHelp(
    "This table holds records of models available to chat with on the Fury.AL AI chat system.",
    map[
      "id" := "This is the primary key of the table.",
      "user_id" := "This is the id of the user that downloaded the model.",
      "base_model_id" := "This will show if the current model on the record is based off another model in this record. These are called custom models.",
      "name" := "This is the name of the model.",
      "meta" := "This includes metadata of the model with information like description, capabilities, suggestion prompts, and knowledge.",
      "params" := "These are the parameters the model starts off with.",
      "created_at" := "This is when the model was created.",
      "updated_at" := "This is when the model was updated."
    ])

  /** The descriptions of table "prompt". */
  const PromptHelp := TableHelp(
    "This table holds records of prompts available for users to pass to a LLM with the hotkey '/' followed by the prompt title.",
    map[
      "id" := "This is the primary key for this table.",
      "command" := "This is the command the user has to run the activate and run this prompt.",
      "user_id" := "This is the id of the user who created the prompt.",
      "title" := "This is the title of the prompt.",
      "content" := "This is the content of the prompt that will be passed to the LLM during a chat.",
      "timestamp" := "This is the timestamp of when the prompt was created."
    ])

  /** The descriptions of table "user". */
  const UserHelp := TableHelp(
    "This table includes information about users of the Fury.AI Ai chat system.",
    map[
      "id" := "This is the primary key of the table and the users id.",
      "name" := "This is the name of the user.",
      "email" := "This is the email of the user.",
      "role" := "This is the role of the user whether admin or standard user.",
      "profile_image_url" := "This is the url of the profile image of the user.",
      "api_key" := "always NULL.",
      "created_at" := "This is when the user was created.",
      "updated_at" := "This is when the user was updated.",
      "last_active_at" := "This is when the user was last active on the system.",
      "settings" := "These are profile settings of the user.",
      "info" := "always NULL.",
      "oauth_sub" := "always NULL."
    ])

  /** `IGNORED_TABLES`: tables the agent is never shown. */
  const IgnoredTables: seq<string> := [
    "alembic_version",
    "chatidtag",
    "config",
    "function",
    "memory",
    "migratehistory",
    "tag",
    "tool"
  ]

  /** `IGNORED_COLUMNS`: columns the agent is never shown (none at present). */
  const IgnoredColumns: seq<string> := []
}
