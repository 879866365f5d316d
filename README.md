# Credit card rewards advisor: account store and knowledge-base text, in Dafny

This project models two helper modules of a Streamlit credit-card rewards
advisor and proves properties of the model.

- **`Accounts`** (`accounts.dfy`) models the account store of
  `helper_functions/auth.py`. The three JSON files the application keeps are
  the three map fields of class `Accounts.Store`:
  - `users`: username to account row;
  - `spending`: username to that user's spending ledger;
  - `cards`: username to (card name to card settings).

  The loaders are functions that read these maps. A user without a slot gets
  an empty ledger or an empty card table. The savers, `update_card_settings`,
  `add_spending_entry`, `delete_spending_entry` and `register_user` are
  methods that reassign the maps.

  Each ledger operation also has a specification function on sequences:
  - `Appended` says what adding an entry does.
  - `Without` and `Renumbered` (composed as `Deleted`) say what deleting does.

  The renumbering loop of the delete is the method `Reindex`, proved against
  `Renumbered`.
- **`Rag`** (`rag.dfy`) models the text-building parts of
  `helper_functions/rag_helper.py`:
  - rendering knowledge-base records as entity or relationship text;
  - the loop that turns a JSON-lines knowledge base into documents;
  - assembling similarity-search results from the labels the vector index
    returns;
  - joining retrieved documents into the context handed to the language model.

  Each loop is a method proved equal to a recursive specification function:
  - `AppendPropertyLines` against `PropertyBlock`;
  - `LoadCreditCardKb` against `KbDocuments`;
  - `RagSystem.SimilaritySearch` against `Picked`.

  Lemmas then state the rendered shapes, the order of the output and the
  line counts about those functions.
- **`Wrappers`** (`wrappers.dfy`) holds the `Option` type.

Inputs that the code takes from the environment are parameters of the model:
- `datetime.now().isoformat()` is a `now: string` argument.
- The neighbour positions FAISS returns for a query are a `labels: seq<int>`
  argument.
- A line of the knowledge-base file is already decoded. It is either
  `Parsed(record, dumped)` or `Malformed`:
  - `dumped` is the text `json.dumps` makes of the decoded value, so
    metadata "data" keeps the key order and JSON types of the original line.
  - `Malformed` stands for every line on which the loading loop raises, not
    only one that `json.loads` rejects.
- A record's scalar fields and property values are strings, already rendered
  the way Python's f-string would render them.
- Amounts are `real` values. The store only stores them and never computes
  with them.

Two behaviours of the code are worth knowing, and the model keeps both:
- Deleting an id that is not in the ledger is silently accepted rather than
  reported as not found. The code filters nothing out, renumbers the ledger
  and saves it. `Accounts.DeleteAbsentId` states this.
- A card's `statement_day` and `payment_days` are stored exactly as given,
  without a range check.

## Model

| member | source | states |
|---|---|---|
| Accounts.WithoutMembers | helper_functions/auth.py:120 | An entry survives the delete filter iff it was in the ledger and its id differs from the id being deleted. |
| Accounts.Without | helper_functions/auth.py:120 | The list comprehension of the delete: keeps, in order, the entries whose id differs from the one deleted. Its contract bounds the result by the input's length. `WithoutMembers`, `WithoutAppend`, `WithoutAbsent` and `WithoutFromDense` state the rest. |
| Accounts.WithoutAppend | helper_functions/auth.py:120 | The filter distributes over concatenation, so survivors keep their relative order. |
| Accounts.WithoutAbsent | helper_functions/auth.py:120 | When no entry carries the id, the filter removes nothing. |
| Accounts.WithoutFromDense | helper_functions/auth.py:120 | In a ledger numbered 1..N that holds id x, the filter removes exactly the x-th entry. |
| Accounts.Renumbered | helper_functions/auth.py:122-124 | Renumbering keeps the length, gives ids 1..N in list order and changes no other field of any entry. |
| Accounts.Deleted | helper_functions/auth.py:119-124 | What delete makes of a ledger: filter, then renumber. The result is no longer than the input and is numbered 1..N. `DeleteFromDense` and `DeleteAbsentId` give it entry by entry. |
| Accounts.Reindex | helper_functions/auth.py:122-124 | The in-place `enumerate(..., 1)` loop ends with ids 1..N in list order, the same length, and every other field of every entry unchanged. |
| Accounts.RenumberedUnique | helper_functions/auth.py:122-124 | Any ledger numbered 1..N that agrees with the input except on ids is the renumbered ledger, so the loop's result is determined. |
| Accounts.Appended | helper_functions/auth.py:101-115 | Adding appends one entry numbered (old length + 1) with the given fields and leaves earlier entries unchanged. On a ledger numbered 1..N the result is numbered 1..N+1 and the new id was not in use. |
| Accounts.DeleteAbsentId | helper_functions/auth.py:117-126 | Deleting an absent id raises nothing. The ledger keeps its length and every non-id field, and a ledger already numbered 1..N comes back unchanged. |
| Accounts.DeleteFromDense | helper_functions/auth.py:117-126 | In a ledger numbered 1..N holding id x, delete removes exactly the x-th entry. Earlier entries are untouched. Each later entry moves down one place, keeps its other fields and takes its new position as id. |
| Accounts.DeleteLastThenAdd | helper_functions/auth.py:101-126 | Deleting the only entry empties the ledger, and the next entry added is numbered 1. |
| Accounts.Store.LoadUserSpending | helper_functions/auth.py:35-41 | A user with no slot in the spending file reads as the empty ledger. Otherwise the result is the stored ledger. |
| Accounts.Store.LoadUserCards | helper_functions/auth.py:61-67 | A user with no slot in the cards file reads as the empty card table. Otherwise the result is the stored table. |
| Accounts.Store.SaveUsers | helper_functions/auth.py:29-33 | The users file becomes the table given. The spending and cards files are unchanged. |
| Accounts.Store.SaveUserSpending | helper_functions/auth.py:43-59 | Only this user's slot is replaced. Loading it back returns the data saved, every other user's ledger reads as before, and the other files are unchanged. |
| Accounts.Store.SaveUserCards | helper_functions/auth.py:69-85 | Only this user's slot is replaced. Loading it back returns the data saved, every other user's cards read as before, and the other files are unchanged. |
| Accounts.Store.UpdateCardSettings | helper_functions/auth.py:87-97 | Sets exactly the given card's key to (statement day, payment days, timestamp). Every other card of the user and every other user's cards are unchanged. |
| Accounts.Store.AddSpendingEntry | helper_functions/auth.py:99-115 | Returns the new entry, whose id is the old ledger length + 1, and appends it last. The new ledger is `Appended` of the old one. Numbering 1..N is preserved in this ledger and across all ledgers, and other users and files are unchanged. |
| Accounts.Store.DeleteSpendingEntry | helper_functions/auth.py:117-126 | The user's ledger becomes `Deleted` of the old one (filter, then renumber) and is numbered 1..N afterwards. Numbering is preserved across all ledgers, and other users and files are unchanged. |
| Accounts.Store.GetUserInfo | helper_functions/auth.py:156-159 | The result is present iff the user is registered, and then it is the stored row. |
| Accounts.Store.CheckLogin | helper_functions/auth.py:128-131 | True iff the user is registered and the stored password equals the one given. |
| Accounts.Store.RegisterUser | helper_functions/auth.py:133-154 | Succeeds iff the name is free, at least 3 long and the password at least 6 long. Failures are reported in that order with the exact messages and leave the users file unchanged. Success inserts a row with role "user", returns "Registration successful", and the user can then log in. |
| Rag.PropertyBlock | helper_functions/rag_helper.py:62-63 | The property lines: one `"  key: value\n"` line per property, in order. The lemmas below state its properties. |
| Rag.PropertyBlockAppend | helper_functions/rag_helper.py:62-63 | The property lines of a concatenated list are those of each part, in order. |
| Rag.PropertyBlockSnoc | helper_functions/rag_helper.py:62-63 | One more property adds exactly its indented line at the end. |
| Rag.PropertyLineAt | helper_functions/rag_helper.py:62-63 | The i-th property's line sits between the lines of the properties before it and those after it. |
| Rag.PropertyBlockEndsWithNewline | helper_functions/rag_helper.py:62-65 | A non-empty property list renders as text ending in a line break. |
| Rag.PropertyBlockNewlines | helper_functions/rag_helper.py:62-63 | With keys and values free of line breaks, the property lines hold exactly one line break per property. |
| Rag.AppendPropertyLines | helper_functions/rag_helper.py:62-63 | The `text += ...` loop over the properties yields the text followed by one indented line per property, in order. |
| Rag.EntityText | helper_functions/rag_helper.py:57-63 | The entity text: the header line, then the property lines. `EntityTextShape` and `EntityTextLines` state its shape. |
| Rag.FormatEntity | helper_functions/rag_helper.py:55-65 | The entity renderer yields the header line followed by the property lines. |
| Rag.EntityTextShape | helper_functions/rag_helper.py:57-61 | Entity text starts with the "type: id" header. It starts with "Unknown: " when the record has no type, and it always ends with a line break. |
| Rag.EntityTextLines | helper_functions/rag_helper.py:57-65 | When the printed type (default "Unknown"), the printed id and every property key and value hold no line break, the entity renders as exactly 1 + (number of properties) lines. Unprinted fields such as "source" may hold anything. |
| Rag.RelationshipText | helper_functions/rag_helper.py:69-76 | The relationship text: the header line, then the property lines. `RelationshipTextShape` and `RelationshipTextLines` state its shape. |
| Rag.FormatRelationship | helper_functions/rag_helper.py:67-78 | The relationship renderer yields the "Relationship: source --[relation]--> target" header followed by the property lines. |
| Rag.RelationshipTextShape | helper_functions/rag_helper.py:69-74 | Relationship text starts with its header line and always ends with a line break. |
| Rag.RelationshipTextLines | helper_functions/rag_helper.py:69-78 | When the printed source, relation and target and every property key and value hold no line break, the relationship renders as exactly 1 + (number of properties) lines. Unprinted fields such as "id" may hold anything. |
| Rag.Classify | helper_functions/rag_helper.py:38-43 | A record with "type" is an entity, even with "source". One with only "source" is a relationship, and one with neither is skipped. |
| Rag.KbDocument | helper_functions/rag_helper.py:38-48 | One record yields at most one document, none exactly when it has neither "type" nor "source". The document's metadata is the source tag and the line's `json.dumps` text. |
| Rag.RecordDocuments | helper_functions/rag_helper.py:38-49 | A record with "type" becomes an entity document even if it also has "source". One with only "source" becomes a relationship document, and one with neither yields no document. The metadata is the knowledge-base source tag and the line's `json.dumps` text. |
| Rag.KbDocuments | helper_functions/rag_helper.py:28-53 | The load yields at most one document per line of the file. |
| Rag.KbDocumentsAppend | helper_functions/rag_helper.py:34-49 | For lines on which the loop does not raise (`Parsed`), loading them followed by more lines is loading each part in turn, so documents follow file order. |
| Rag.KbStopsAtMalformed | helper_functions/rag_helper.py:32-53 | A `Malformed` line (one on which the loop raises) ends the load: documents before it are kept and nothing after it is read. |
| Rag.LoadCreditCardKb | helper_functions/rag_helper.py:28-53 | The loading loop returns exactly `KbDocuments` of the file's lines. |
| Rag.Picked | helper_functions/rag_helper.py:159-164 | The assembled results are no more numerous than the labels, and every result is one of the documents. |
| Rag.PyIndex | helper_functions/rag_helper.py:162 | Python list indexing: the result is one of the documents, and -1 picks the last. |
| Rag.PickedInRange | helper_functions/rag_helper.py:159-164 | When every label is a valid position, the i-th result is the document at the i-th label, in label order. |
| Rag.RagSystem.constructor | helper_functions/rag_helper.py:23-24 | A fresh system has no index and no documents. |
| Rag.RagSystem.SimilaritySearch | helper_functions/rag_helper.py:146-164 | Without an index or documents the result is empty. Otherwise it is `Picked` of the index's labels: no longer than k, every item one of the documents, in label order. |
| Rag.ContextChunk | helper_functions/rag_helper.py:170 | A document without a source is labelled "Source: unknown". |
| Rag.Join | helper_functions/rag_helper.py:169 | Python's `sep.join(parts)`. `JoinSnoc` states how it grows. |
| Rag.Chunks | helper_functions/rag_helper.py:169-171 | The comprehension of per-document blocks: one block per document, in document order. |
| Rag.Context | helper_functions/rag_helper.py:169-172 | The context: the blocks joined by a blank line. `ContextFront` and `ContextAppend` state its shape. |
| Rag.JoinSnoc | helper_functions/rag_helper.py:169 | Joining one more part appends the separator and that part. The first part is not preceded by a separator. |
| Rag.ContextFront | helper_functions/rag_helper.py:169-172 | The context opens with the first document's block, followed by a blank line and the context of the rest (if any). |
| Rag.ContextAppend | helper_functions/rag_helper.py:169-172 | One more retrieved document appends a blank line and its block to the context. |

## Left out

- The Streamlit pages (`login_page`, `logout`, `require_login`, `display_user_header`) are screen rendering and session state. So is the invite-code check of the registration form: it only shows an error and does not stop registration.
- `load_users` (helper_functions/auth.py:11-27) reads the users file, or writes a default admin account when the file is missing. File existence is not modelled: a `Store` starts from whatever tables it is given.
- Reading and writing the JSON files, and `os.makedirs`, are replaced by the map fields of `Store`. A failing read or write is not modelled.
- Accounts.Store.SaveUserSpending, Accounts.Store.SaveUserCards, Accounts.Store.AddSpendingEntry, Accounts.Store.DeleteSpendingEntry and Accounts.Store.UpdateCardSettings are modelled as atomic steps taken one after another. In the code each one reads the whole JSON file, replaces one slot and writes the whole file back, with no lock. Under concurrent sessions, one session's write can therefore erase another's update, even for a different user. The "other users unchanged" postconditions hold only for calls made in sequence.
- `datetime.now()` is a `now` argument, so timestamps are whatever the caller passes.
- Default arguments are not modelled: every parameter is passed explicitly. These are `notes=""` of `add_spending_entry` (helper_functions/auth.py:99), `k=5` of `similarity_search` (helper_functions/rag_helper.py:146) and the default `json_path` of `load_credit_card_kb` (helper_functions/rag_helper.py:28).
- The error message that `load_credit_card_kb` prints when it stops the load (helper_functions/rag_helper.py:51) is console output and is not modelled. Only the documents returned are.
- Accounts.Entry: amounts are `real`, not IEEE doubles. The store never computes with them, so the difference is not observable in the model.
- Rag.LoadCreditCardKb: opening the file is not modelled. A missing file ends the Python load with no documents, like a `Malformed` first line. `json.loads` and `json.dumps` are not modelled: each line arrives as `Parsed(record, dumped)` or `Malformed`.
  - Some lines decode but still raise in the loop body, and the surrounding `try` ends the whole load on them too. These are `Malformed` in the model:
    - `null`, `true`, `false` or a number;
    - a string or an array that contains "type" or "source";
    - an object with a "type" or "source" key whose "properties" is not an object (null, a list, a string, a number or a boolean).
  - An object with neither key is `Parsed` and skipped, whatever its "properties" holds.
  - A string or array holding neither word is also skipped, which the model writes as `Parsed` of a record with no fields.
- Rag.RagSystem.SimilaritySearch: the query embedding and the FAISS search are not modelled. Their result enters as `labels`, and the requires clauses assume what FAISS promises: min(k, number of documents) labels, none below -1. A label of -1 picks the last document, as Python indexing does.
- Rag.RagSystem.SimilaritySearch does not state that the search returns the documents nearest the query. That depends on the embeddings and the index, which are outside the model.
- `process_pdf`, `build_vector_store`, `save_vector_store`, `load_vector_store` and the text splitter (helper_functions/rag_helper.py:80-144) are PDF extraction, embedding calls, FAISS and pickle. None of them is part of this model.
- The prompt text and the chat-completion call of `generate_answer` (helper_functions/rag_helper.py:174-203) are a network call to a language model. Only the context join is modelled.
- The dashboard aggregations in helper_functions/spending_tracker.py are pandas and plotting code and are not part of this model. Features of the application that live outside auth.py and rag_helper.py, including whatever reads the stored `statement_day` and `payment_days`, are not part of this model.
