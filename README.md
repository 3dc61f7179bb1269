# powertoolkit.dev — a verified model of its core rules

powertoolkit.dev is a chat application. Each user has chats, which can be public or private, and workbenches. Toolkits (GitHub, Notion, Google Calendar, Google Drive, Exa, …) give the chat tools. The server is built from RPC routers over a database. User identity comes from a hosted identity provider, and third-party OAuth connections go through a hosted connection service.

This project models, in Dafny, the deterministic rules underneath that glue:

- the chats router, as a store class over chat and message tables: cursor pagination, the visibility rule, owner-only updates and deletion, and branching a chat at a message;
- the local user table:
  - the protected procedure's find-or-create provisioning;
  - the identity provider's webhook events;
  - the users router's get, update and delete;
- the accounts router's provider ids and its external-account queries;
- the toolkit factory, and each toolkit server's OAuth token choice and error mapping;
- the connection-service routes (initiate, disconnect, list), with its lazily created client and its error mapping;
- the upload route's validation;
- the middleware's route protection;
- the client-side selection logic:
  - toolkit filtering under the external-accounts flag;
  - URL auto-add and button priority;
  - the toolkit dialog's open state, label and save payload;
  - the connected-accounts tab's state;
  - the add-button wrappers, the sidebar's user details and the auto-resume hook.

Every vendor call is a parameter of the model:

- the identity provider's user and token APIs;
- the connection service's initiate, get, list and delete;
- blob storage;
- webhook signature verification;
- the outcome of provisioning's insert, the one database write whose failures other than a missing row or a taken id or e-mail are modelled (the unique e-mail column is enforced by the model itself, also there). Such failures of the other writes are not modelled; see "## Left out".

These parameters are either functions (oracles) or datatypes of the vendor's possible answers. The user's id from `auth()` is an `Option<string>`; JavaScript truthiness is `Truthy` (present and non-empty). Timestamps and random ids are opaque inputs.

One module per source file:

- Chats: `chats.dfy`
- Provisioning: `provisioning.dfy`
- Users: `users.dfy`
- ClerkWebhook: `clerk_webhook.dfy`
- Accounts: `accounts.dfy`
- CreateToolkit: `create_toolkit.dfy`
- OAuthTokens: `oauth_tokens.dfy`, the selection rule the token servers share
- GithubServer, NotionServer, GoogleCalendarServer, GoogleDriveServer
- ComposioClient: `composio_client.dfy`
- ComposioErrors: `composio_errors.dfy`, the catch-all error mapping the three connection routes share
- ConnectInitiate, ConnectDisconnect, ComposioConnections
- FileUpload, Middleware, FilteredToolkits, ToolkitList, ToolsSelect, ConnectedAccounts, ToolkitWrappers, NavUser, AutoResume

The modules Wrappers, Seqs, Strings, Records and Api hold shared helpers:

- Option and Result;
- filter, map, find and stable sort, with their laws;
- ASCII case mapping, white-space trimming, prefix and substring tests;
- ordered key/value records (JavaScript objects) with spread;
- the RPC error codes and the `limit` rule.

What the code does that is easy to miss, all of it modelled as written:

- provisioning: when `fullName` is the empty string and first and last name are not both non-empty, the stored name stays `""` rather than null;
- webhook `user.updated`: with no primary address entry, the e-mail is left undefined in the update, so the stored e-mail keeps its value;
- getChats: a cursor equal to `""` is falsy and means "no cursor", so a chat whose id is `""` at a page boundary restarts paging (`Chats.EmptyIdCursorRestarts`);
- the connection client's own missing-key error spells `COMPOSIO_API_KEY` and not "API key", so the routes answer it with their generic 500;
- tools dialog: a URL parameter whose value is empty does not open the dialog (`searchParams.get` is falsy);
- the GitHub add-button wrapper compares providers to `"github"`, while the Notion wrapper uses `"oauth_notion"` and the GitHub token server asks for `"oauth_github"`. Each is kept as written (`ToolkitWrappers.GithubWrapperSpelling`). With the flag on, the GitHub toolkit is hidden anyway, so the wrapper is not reached there.

## Model

| member | source | states |
|---|---|---|
| Api.ParseLimit | src/server/api/routers/chats.ts:9 | `limit` is accepted iff it lies in 1..100; an absent limit is 10; a rejected one is an input error on `limit` |
| Chats.Listing | src/server/api/routers/chats.ts:18-25 | the query selects exactly the caller's chats in the requested workbench, ordered by createdAt descending |
| Chats.ListingUnique | src/server/api/routers/chats.ts:18-25 | a listing of a table with unique ids has unique ids, so a cursor names one row |
| Chats.FromCursor | src/server/api/routers/chats.ts:27-29 | the rows from the cursor on: no more than the listing, all of it without a truthy cursor, and otherwise starting at the cursor row |
| Chats.FromCursorSuffix | src/server/api/routers/chats.ts:27-29 | the rows from the cursor on are a suffix of the listing |
| Chats.CursorStart | src/server/api/routers/chats.ts:27-29 | the page starts at the top without a truthy cursor, else at the row with the cursor's id, and is empty when no listed row has that id |
| Chats.Take | src/server/api/routers/chats.ts:26 | `take: n` gives the first min(n, length) rows |
| Chats.PageOf | src/server/api/routers/chats.ts:30-37 | of the `limit+1` fetched rows at most `limit` are returned; hasMore iff more than `limit` were fetched; nextCursor is present iff hasMore and is then the id of the first row left out |
| Chats.ChatsPage | src/server/api/routers/chats.ts:6-38 | getChats fails iff the limit is invalid; otherwise the page is a prefix of the rows from the cursor on, at most `limit` long, hasMore iff more rows follow, and nextCursor iff hasMore |
| Chats.PageItemsListed | src/server/api/routers/chats.ts:18-25 | every chat on a page is the caller's, in the requested workbench, and the page is ordered newest first |
| Chats.NextPageContinues | src/server/api/routers/chats.ts:26-37 | paging is seamless: a page's items followed by everything from its nextCursor on are exactly what followed its own cursor, when the cursor row's id is non-empty |
| Chats.EmptyIdCursorRestarts | src/server/api/routers/chats.ts:27-32 | a next cursor equal to "" is read as no cursor, so the next page starts again at the top |
| Chats.VisibleChat | src/server/api/routers/chats.ts:44-49 | getChat returns a chat with the id only when the caller owns it or it is public, and returns nothing iff there is no such chat |
| Chats.VisibleChatOwnership | src/server/api/routers/chats.ts:44-49 | the owner always gets their own chat; another user's private chat is never returned |
| Chats.MessagesOf | src/server/api/routers/chats.ts:155-162 | the messages read for branching are exactly the chat's messages, ordered by createdAt ascending |
| Chats.CopyMessages | src/server/api/routers/chats.ts:186-193 | one copy per source message, in order, each placed in the new chat with role, parts, attachments and model carried over |
| Chats.OwnedIndex | src/server/api/routers/chats.ts:146-152 | finds the chat with this id and this owner, and reports none iff no chat with the id belongs to the caller |
| Chats.BranchFails | src/server/api/routers/chats.ts:146-170 | branchChat fails iff the original is missing or not the caller's, or the message is not in it, or the new id is taken |
| Chats.OldestFirstPrefix | src/server/api/routers/chats.ts:165-173 | in oldest-first order, the prefix up to the target holds every older message and nothing newer |
| Chats.Branch | src/server/api/routers/chats.ts:165-194 | a successful branch is a new chat with the new id, owned by the caller and child of the original, which the caller owns; it copies at least one message, and every copy belongs to the new chat |
| Chats.BranchShape | src/server/api/routers/chats.ts:165-194 | a branch is the caller's new chat, child of the original, with its title and visibility, holding index+1 copies of the original's oldest-first messages up to and including the target |
| Chats.BranchIncludesEarlier | src/server/api/routers/chats.ts:155-173 | the copied messages are the original's messages no newer than the target, and every message older than the target is copied |
| Chats.RemoveAtMembers | src/server/api/routers/chats.ts:129-131 | removing the row at an index of a table with unique ids removes exactly the chat with that id |
| Chats.ChatStore.GetChats | src/server/api/routers/chats.ts:6-38 | every chat returned is in the table and is one of the caller's chats in the workbench |
| Chats.ChatStore.GetChat | src/server/api/routers/chats.ts:41-52 | the chat is returned iff it is visible to the caller |
| Chats.ChatStore.CreateChat | src/server/api/routers/chats.ts:56-76 | a chat of the caller's with the given fields is appended, and no parent; a taken id is a unique violation that changes nothing |
| Chats.ChatStore.UpdateChatVisibility | src/server/api/routers/chats.ts:78-93 | only a chat of the caller's matches, and only its visibility changes; otherwise record-not-found and nothing changes |
| Chats.ChatStore.UpdateChatTitle | src/server/api/routers/chats.ts:95-110 | only a chat of the caller's matches, and only its title changes; otherwise record-not-found and nothing changes |
| Chats.ChatStore.DeleteChat | src/server/api/routers/chats.ts:112-132 | "Chat not found." for an unknown id, "Access denied…" for another user's chat, both changing nothing; otherwise exactly that chat leaves the table |
| Chats.ChatStore.BranchChat | src/server/api/routers/chats.ts:134-196 | on failure nothing is created; on success the branched chat and its copied messages are appended, as Branch specifies |
| Provisioning.NameToStore | src/server/api/trpc.ts:148-151 | the stored name is the full name when non-empty, else "first last" when both are non-empty, else the full name as it came |
| Provisioning.AddressOf | src/server/api/trpc.ts:160 | the stored e-mail is the primary entry's address, absent when there is none |
| Provisioning.NewRow | src/server/api/trpc.ts:157-168 | the new row has the caller's id, the derived name, the image, the primary address, and a verification time iff the primary address is verified |
| Provisioning.UnauthenticatedRejected | src/server/api/trpc.ts:126-128 | a call without a user id is refused UNAUTHORIZED and the table is untouched |
| Provisioning.ExistingRowUsed | src/server/api/trpc.ts:132-136 | an existing row is attached as it is and nothing is created |
| Provisioning.MissingProfileFails | src/server/api/trpc.ts:139-145 | without a profile a missing user is refused INTERNAL_SERVER_ERROR and nothing is created |
| Provisioning.FailedInsertOutcomes | src/server/api/trpc.ts:170-191 | a non-unique failure gives the generic error; a unique-constraint failure (P2002 or an e-mail target) re-reads the row, and fails with the race error when it is still absent |
| Provisioning.TakenAddressRefused | src/server/api/trpc.ts:156-181 | a new user whose primary address another row holds is not created: the unique e-mail column refuses the insert, the re-read finds nothing and the race error is thrown with the table unchanged |
| Provisioning.ProvisionedUserIsCallers | src/server/api/trpc.ts:130-202 | on success the attached user has the caller's id and is the caller's stored row; the table stays keyed by id; no other row changes, and the table changes only when the caller had no row; and when the table holds no address twice and a concurrent row it may find obeys the unique e-mail column, it still holds none twice |
| Provisioning.ProvisionKeepsEmailsUnique | src/server/api/trpc.ts:156-191 | provisioning never leaves one address in two rows, given that a concurrent row obeys the unique e-mail column |
| Provisioning.Provision | src/server/api/trpc.ts:123-203 | without a user the call is refused UNAUTHORIZED with the table untouched; an attached user is the caller's stored row; the table changes only by adding a row for a caller who had none |
| Provisioning.ProvisionUser | src/server/api/trpc.ts:123-203 | the middleware, step by step, ends with the result and table that Provision specifies, and keeps addresses unique under the same condition |
| Users.IsEmail | src/server/api/routers/users.ts:37 | an accepted address contains '@' and does not start with it |
| Users.EmailShape | src/server/api/routers/users.ts:37 | an accepted e-mail has exactly one '@', a non-empty part before it and a dot after it |
| Users.EmailAccepted | src/server/api/routers/users.ts:37 | "ada@b.io" passes the e-mail check |
| Users.EmailWithoutDotRefused | src/server/api/routers/users.ts:37 | "ada@b" fails the e-mail check |
| Users.Patched | src/server/api/routers/users.ts:47-52 | an update replaces the supplied fields and keeps the absent ones, the id and the verification time |
| Users.PatchedLaws | src/server/api/routers/users.ts:47-52 | an empty update changes nothing, and applying the same update twice is applying it once |
| Users.UserTable.Lookup | src/server/api/routers/users.ts:19-30 | a lookup by id finds the row stored under that id |
| Users.UserTable.GetCurrentUser | src/server/api/routers/users.ts:5-31 | the attached user when present; otherwise the caller's row looked up by id |
| Users.UserTable.UpdateUser | src/server/api/routers/users.ts:33-53 | an invalid e-mail is refused with nothing changed; a missing row is record-not-found; an e-mail another row holds is a unique-constraint error on `email`, with nothing changed; otherwise only the caller's row changes, and only in the supplied fields; an update never makes two rows share an address |
| Users.UserTable.DeleteUser | src/server/api/routers/users.ts:55-65 | only the caller's row is removed; a missing row is record-not-found |
| Users.WriteKeepsEmailsUnique | src/server/api/routers/users.ts:47-52 | writing a row whose address no other row holds keeps addresses unique |
| Users.UpdateKeepsEmailsUnique | src/server/api/routers/users.ts:47-52 | an update whose address no other row holds keeps addresses unique |
| ClerkWebhook.PrimaryEmail | src/app/api/webhooks/clerk/route.ts:56-58 | the entry whose id is the primary address id, and none iff no entry has that id |
| ClerkWebhook.DisplayName | src/app/api/webhooks/clerk/route.ts:59-61 | the username when there is no first name; otherwise "first last" with white space trimmed from both ends, a part of "first last" that neither starts nor ends with white space |
| ClerkWebhook.FirstNameAlone | src/app/api/webhooks/clerk/route.ts:59-61 | a first name with no last name and no surrounding space is stored as it is |
| ClerkWebhook.CreatedRow | src/app/api/webhooks/clerk/route.ts:53-71 | the inserted row carries the event id, the derived name, the image, the primary address, and a verification time iff that address is verified |
| ClerkWebhook.UpdatedRow | src/app/api/webhooks/clerk/route.ts:76-90 | an update overwrites name, image and verification time; the e-mail is overwritten only when there is a primary entry |
| ClerkWebhook.RejectedDeliveriesChangeNothing | src/app/api/webhooks/clerk/route.ts:23-43 | missing headers or failed verification give 400, and any answer but success leaves the table unchanged |
| ClerkWebhook.Handle | src/app/api/webhooks/clerk/route.ts:20-115 | missing svix headers, and only they, give 400 "no headers"; a failed verification, and only that, gives 400 "verification failed"; any answer other than 200 leaves the table unchanged |
| ClerkWebhook.EventEffects | src/app/api/webhooks/clerk/route.ts:45-114 | each event touches only its own id's row: created inserts it unless the id or its address is taken, updated rewrites it unless the row is missing or its new address is another row's, deleted removes it, other types change nothing; a refused write gives 500 with the table unchanged, everything else 200 |
| ClerkWebhook.HandleKeepsKeys | src/app/api/webhooks/clerk/route.ts:45-107 | the table stays keyed by id through every delivery |
| ClerkWebhook.HandleKeepsEmailsUnique | src/app/api/webhooks/clerk/route.ts:50-106 | no delivery leaves one address in two rows, because the unique e-mail column refuses the write |
| ClerkWebhook.HandleWebhook | src/app/api/webhooks/clerk/route.ts:20-115 | the handler answers and updates the table as Handle specifies, and keeps addresses unique |
| Accounts.ProviderId | src/server/api/routers/accounts.ts:9-17 | the provider id is "oauth_" followed by the lower-cased name |
| Accounts.StripOAuth | src/server/api/routers/accounts.ts:35-37 | a leading "oauth_" is removed; other ids are kept |
| Accounts.StripProviderId | src/server/api/routers/accounts.ts:9-37 | stripping undoes the mapping up to case, and the mapping ignores case |
| Accounts.GetAccounts | src/server/api/routers/accounts.ts:22-53 | every linked account, one for one and in order, with its stripped provider; never more pages; empty without a user or on a lookup error; an invalid limit is refused |
| Accounts.AccountFor | src/server/api/routers/accounts.ts:64-66 | the account with the provider id at the first position holding one, and none iff no account has it |
| Accounts.GetAccountByProvider | src/server/api/routers/accounts.ts:55-86 | null without a user or on error; otherwise the details of the first account of the mapped provider, and null iff there is none |
| Accounts.HasProviderAccount | src/server/api/routers/accounts.ts:88-106 | true iff some account has the mapped provider id; false without a user or on error |
| Accounts.HasAgreesWithGet | src/server/api/routers/accounts.ts:55-106 | hasProviderAccount is true exactly when getAccountByProvider finds an account |
| Accounts.DeleteAccount | src/server/api/routers/accounts.ts:108-130 | UNAUTHORIZED without a user; success iff the provider deletes the account; any failure is INTERNAL_SERVER_ERROR |
| CreateToolkit.BuildTools | src/toolkits/create-toolkit.ts:36-42 | after the fold every folded name, and every key that already held a tool, holds one |
| CreateToolkit.BuildToolsGet | src/toolkits/create-toolkit.ts:36-42 | after the fold each folded name holds the tool built from its base and its configuration, and other keys keep their values |
| CreateToolkit.BuildToolsKeys | src/toolkits/create-toolkit.ts:36-42 | folding distinct new names appends them, in order, to the existing keys |
| CreateToolkit.CreateClientToolkit | src/toolkits/create-toolkit.ts:22-45 | the client toolkit has no plain field called `tools`, and a tool for every configured tool name |
| CreateToolkit.ClientToolkitShape | src/toolkits/create-toolkit.ts:22-45 | the client toolkit has a tool for exactly the configured names, each built from its base and client configuration; client fields override base fields, and `tools` is replaced |
| CreateToolkit.ServerTools | src/toolkits/create-toolkit.ts:61-80 | the initializer's error or null is passed on; otherwise exactly the initializer's keys, each built with its base configuration |
| CreateToolkit.CreateServerToolkit | src/toolkits/create-toolkit.ts:47-82 | the system prompt is kept, and `tools` forwards both arguments to the initializer |
| OAuthTokens.FirstToken | src/toolkits/toolkits/github/server.ts:53-54 | only the first entry is examined, and its token is used iff it is non-empty |
| OAuthTokens.ToolsWithToken | src/toolkits/toolkits/github/server.ts:75-81 | the tool record has the given names, in order, each with a tool using the token |
| GithubServer.TryToken | src/toolkits/toolkits/github/server.ts:50-58 | the token is obtained iff the request succeeds and its first entry has a non-empty token |
| GithubServer.InitializeTools | src/toolkits/toolkits/github/server.ts:36-82 | UNAUTHORIZED without a user; otherwise the four GitHub tools around the first token, and every failure surfaces as INTERNAL_SERVER_ERROR |
| GithubServer.OnlyGithubTokenRequested | src/toolkits/toolkits/github/server.ts:37-51 | only the token request for the user and "oauth_github" matters, and none is made without a user |
| NotionServer.TryToken | src/toolkits/toolkits/notion/server.ts:66-72 | the token is obtained iff the request succeeds and its first entry has a non-empty token |
| NotionServer.InitializeTools | src/toolkits/toolkits/notion/server.ts:55-100 | UNAUTHORIZED without a user; otherwise the nine Notion tools around the first token, and every failure surfaces as INTERNAL_SERVER_ERROR |
| NotionServer.OnlyNotionTokenRequested | src/toolkits/toolkits/notion/server.ts:56-66 | only the token request for the user and "oauth_notion" matters, and none is made without a user |
| GoogleCalendarServer.TryToken | src/toolkits/toolkits/google-calendar/server.ts:48-55 | the token is obtained iff the request succeeds and its first entry has a non-empty token |
| GoogleCalendarServer.InitializeTools | src/toolkits/toolkits/google-calendar/server.ts:38-79 | UNAUTHORIZED without a user; otherwise five calendar tools around the same token, and every failure surfaces as INTERNAL_SERVER_ERROR |
| GoogleCalendarServer.OnlyGoogleTokenRequested | src/toolkits/toolkits/google-calendar/server.ts:38-50 | only the token request for the user and "oauth_google" matters, and none is made without a user |
| GoogleDriveServer.DriveToken | src/toolkits/toolkits/google-drive/server.ts:45-51 | the first entry for Google whose scopes include the Drive scope, and none iff no entry qualifies |
| GoogleDriveServer.TryToken | src/toolkits/toolkits/google-drive/server.ts:45-55 | the token is obtained iff a qualifying entry exists and its token is non-empty |
| GoogleDriveServer.InitializeTools | src/toolkits/toolkits/google-drive/server.ts:31-73 | UNAUTHORIZED without a user; otherwise both Drive tools around the qualifying token, and every failure surfaces as INTERNAL_SERVER_ERROR |
| GoogleDriveServer.ScopelessFirstEntrySkipped | src/toolkits/toolkits/google-drive/server.ts:45-51 | an entry without the Drive scope is never used, even when it comes first |
| ComposioClient.ClientSlot.GetClient | src/lib/composio.ts:7-19 | a stored client is returned without looking at the key; otherwise a set key builds and stores a client, and a missing key throws and stores nothing |
| ComposioClient.TwoCalls | src/lib/composio.ts:5-19 | at most one client is ever constructed, and once one exists the next call returns it |
| ComposioErrors.CaughtError | src/app/api/composio/connect/initiate/route.ts:87-96 | a thrown message containing "API key" gives the API-key error, any other the route's generic one |
| ComposioErrors.MissingKeyIsGeneric | src/lib/composio.ts:9-12 | the client's missing-key error does not contain "API key", so the routes answer it with their generic error |
| ConnectInitiate.ServiceAuthConfigMap | src/app/api/composio/connect/initiate/route.ts:33-37 | google_calendar is the only key of the service map, mapped to the configured id |
| ConnectInitiate.AuthConfigFor | src/app/api/composio/connect/initiate/route.ts:39-42 | the lookup uses the lower-cased service name, and gives undefined for an unknown one |
| ConnectInitiate.Initiate | src/app/api/composio/connect/initiate/route.ts:13-97 | 401 without a user; 400 for a body without a non-empty service; 400 for an unknown service; 500 for a known unconfigured one; success iff configured, with a client and a redirect address, returning that address and the request id; a request without an address is the no-redirect 500; an error from getting the client or from the request becomes the API-key 500 when its message names the key, else the generic 500 |
| ConnectInitiate.ServiceCaseInsensitive | src/app/api/composio/connect/initiate/route.ts:39-52 | two spellings that lower-case alike get the same status and the same answer, except for the name echoed in a configuration error |
| ConnectInitiate.UnknownServiceNeverInitiates | src/app/api/composio/connect/initiate/route.ts:41-52 | an unknown or unconfigured service never reaches the client or the connection service |
| ConnectInitiate.MissingKeyGivesGenericError | src/app/api/composio/connect/initiate/route.ts:87-96 | without a key a configured request ends in the generic 500, not the API-key one |
| ConnectDisconnect.Disconnect | src/app/api/composio/connect/disconnect/route.ts:11-74 | 401 without a user; 400 unless the id is non-empty and starts with "ca_"; 403 for a missing or foreign account; 404 or 500 for lookup errors; a delete is issued iff the caller owns the account, and success iff it completes; an error from getting the client or from the delete becomes the API-key 500 when its message names the key, else the generic 500 |
| ConnectDisconnect.OthersAccountsUntouched | src/app/api/composio/connect/disconnect/route.ts:34-46 | another user's account gives 403 and no delete, whatever the deletion would do |
| ConnectDisconnect.MalformedIdRefused | src/app/api/composio/connect/disconnect/route.ts:7-26 | an id without the "ca_" prefix is refused with 400 before any lookup |
| ConnectDisconnect.NotFoundIgnoresCase | src/app/api/composio/connect/disconnect/route.ts:47-55 | the not-found test gives the same answer for a message and its lower-cased form |
| ComposioConnections.RawConnections | src/app/api/composio/connections/route.ts:39-48 | the response's `items` if it is such an object, else the array itself, else nothing |
| ComposioConnections.Format | src/app/api/composio/connections/route.ts:51-57 | id, status and configuration id are copied; the name is the toolkit slug when non-empty, else the configuration id |
| ComposioConnections.GetConnections | src/app/api/composio/connections/route.ts:23-72 | 401 without a user; errors give the API-key or the generic 500; otherwise the listing is formatted one for one, in order |
| ComposioConnections.OnlyCallerListed | src/app/api/composio/connections/route.ts:35-37 | the answer depends only on the listing for the caller's own id |
| FileUpload.ValidationErrors | src/app/api/files/upload/route.ts:12-26 | the size message appears iff the file is over the limit, the type message iff its type is not JPEG, PNG or PDF, size first |
| FileUpload.StorageKey | src/app/api/files/upload/route.ts:62-63 | the storage key starts with the caller's id and a slash |
| FileUpload.Upload | src/app/api/files/upload/route.ts:28-85 | 401, empty body, unreadable form and missing file, in that order; failed checks give 400 with all messages joined; the file is stored only after passing, under the caller's prefix; success iff storing and recording succeed, otherwise "Upload failed" |
| FileUpload.BothChecksReported | src/app/api/files/upload/route.ts:47-55 | a file failing both checks gets both messages, size first, joined by ", " |
| FileUpload.OneCheckReported | src/app/api/files/upload/route.ts:47-55 | a file failing one check gets just that message |
| Middleware.Dispatch | src/middleware.ts:6-41 | a request is protected iff its path, ignoring case, is not public ("/", "/login", "/api/public/…") |
| Middleware.TrpcAlwaysProtected | src/middleware.ts:14-36 | every tRPC route is protected |
| Middleware.DispatchIgnoresCase | src/middleware.ts:6-16 | the route matchers ignore case: paths that lower-case alike are dispatched alike |
| Middleware.UpperCaseLoginIsPublic | src/middleware.ts:6-10 | "/LOGIN" passes as a public route |
| FilteredToolkits.DisplayableToolkitIds | src/app/_hooks/useFilteredToolkits.ts:16-22 | with the flag off every id; with it on exactly the ids other than the four legacy toolkits |
| FilteredToolkits.AvailableEntries | src/app/_hooks/useFilteredToolkits.ts:24-32 | the entries under the same rule; with the flag off all of them, unchanged |
| FilteredToolkits.EntriesMatchIds | src/app/_hooks/useFilteredToolkits.ts:16-32 | the available entries' ids are exactly the displayable ids, in order |
| FilteredToolkits.AvailableKeepsOrder | src/app/_hooks/useFilteredToolkits.ts:26-31 | filtering a concatenation is concatenating the filtered parts, so order is kept |
| ToolkitList.ButtonFor | src/components/toolkit/toolkit-list.tsx:127-227 | Active iff selected; else Connect iff an OAuth toolkit; else Configure iff it has parameters; else a plain Add |
| ToolkitList.OnlyExaConnectsUnderFlag | src/components/toolkit/toolkit-list.tsx:42-140 | with the flag on, only Exa among the offered toolkits shows Connect |
| ToolkitList.GroupItems | src/components/toolkit/toolkit-list.tsx:89-91 | a group lists exactly the available toolkits of its type, and no more than there are |
| ToolkitList.ListedUnderOwnGroup | src/components/toolkit/toolkit-list.tsx:89-91 | each available toolkit is listed under its own group and no other |
| ToolkitList.GroupKeepsOrder | src/components/toolkit/toolkit-list.tsx:89-91 | grouping a concatenation is concatenating the groups of its parts, so a group keeps the list's order |
| ToolkitList.AutoAddCandidates | src/components/toolkit/toolkit-list.tsx:60-65 | the toolkits to auto-add are exactly the available ones whose URL parameter is "true" and that are not selected |
| ToolkitList.Selection | src/components/toolkit/toolkit-list.tsx:69-73 | an auto-added toolkit is selected with empty parameters |
| ToolkitList.AutoAddSettles | src/components/toolkit/toolkit-list.tsx:60-76 | once the candidates are selected, the URL asks for nothing more |
| ToolkitList.AutoAddEffect.Run | src/components/toolkit/toolkit-list.tsx:67-76 | every candidate is handed on, in order, with empty parameters, and the address is rewritten iff at least one was |
| ToolkitList.ToolkitItem.HandleConnectService | src/components/toolkit/toolkit-list.tsx:142-169 | the service sent is the lower-cased id; the browser follows the address iff the answer is OK with one; the errors shown; loading stays set iff redirecting |
| ToolsSelect.ToolsDialog.constructor | src/app/_components/chat/input/tools.tsx:40-42 | the dialog starts open iff some displayable toolkit has a non-empty URL parameter |
| ToolsSelect.ToolsDialog.SyncWithLink | src/app/_components/chat/input/tools.tsx:44-51 | the effect only opens the dialog, and never closes it |
| ToolsSelect.ToolsDialog.OnOpenChange | src/app/_components/chat/input/tools.tsx:101 | the dialog's own request sets the open state |
| ToolsSelect.ToolsDialog.SaveSucceeded | src/app/_components/chat/input/tools.tsx:55-59 | a successful save closes the dialog |
| ToolsSelect.NatToString | src/app/_components/chat/input/tools.tsx:119 | a count is written as a non-empty string of decimal digits |
| ToolsSelect.NatToStringValue | src/app/_components/chat/input/tools.tsx:119 | the digits read back to the count |
| ToolsSelect.Label | src/app/_components/chat/input/tools.tsx:117-120 | "Add Toolkits" for none, "1 Toolkit" for one, the count and " Toolkits" otherwise |
| ToolsSelect.TriggerFor | src/app/_components/chat/input/tools.tsx:73-110 | a chosen model without tool calling gets the plain disabled button; otherwise the dialog trigger, disabled iff no model is chosen |
| ToolsSelect.Save | src/app/_components/chat/input/tools.tsx:62-71 | nothing without a workbench; otherwise its id, name and system prompt unchanged, and the selected ids in order |
| ConnectedAccounts.ServiceFor | src/app/account/components/tabs/connected-accounts/index.tsx:67 | the offered service whose id is the account's name, and none iff there is none |
| ConnectedAccounts.WithDetails | src/app/account/components/tabs/connected-accounts/index.tsx:66-73 | the friendly name is the matching service's name when non-empty, else the account's name; an icon iff a service matches |
| ConnectedAccounts.ListingViews | src/app/account/components/tabs/connected-accounts/index.tsx:66-74 | the listing keeps every account, in order, each with its details |
| ConnectedAccounts.FriendlyNames | src/app/account/components/tabs/connected-accounts/index.tsx:66-73 | a google_calendar account shows as "Google Calendar"; any other keeps its name |
| ConnectedAccounts.UnconnectedServices | src/app/account/components/tabs/connected-accounts/index.tsx:213 | the services offered are exactly those no listed account is named after |
| ConnectedAccounts.NoticeWhenEveryServiceConnected | src/app/account/components/tabs/connected-accounts/index.tsx:213-231 | once every offered service has an account and something is connected, the "all connected" notice shows |
| ConnectedAccounts.Badge | src/app/account/components/tabs/connected-accounts/index.tsx:189 | the badge is "default" iff the status is "ACTIVE" |
| ConnectedAccounts.ErrorOr | src/app/account/components/tabs/connected-accounts/index.tsx:60-61 | the answer's error text when non-empty, else the default |
| ConnectedAccounts.ConnectedAccountsTab.FetchConnectedAccounts | src/app/account/components/tabs/connected-accounts/index.tsx:54-82 | on success the listing with details and no error; on failure an empty list and the error; loading ends; the per-id flags are untouched |
| ConnectedAccounts.ConnectedAccountsTab.HandleDisconnect | src/app/account/components/tabs/connected-accounts/index.tsx:107-135 | nothing without confirmation; otherwise only that id's flag changes and ends false, the list is refetched iff the call succeeds, and failures set the error |
| ConnectedAccounts.ConnectedAccountsTab.HandleConnect | src/app/account/components/tabs/connected-accounts/index.tsx:137-163 | only that service's flag changes; it stays set iff the browser follows a redirect address, and every failure sets the error and lowers it |
| ToolkitWrappers.AddToolkitWrapper | src/toolkits/toolkits/github/client.tsx:26-50 | the control with the flag off; with it on a spinner while the user loads, then the control iff the user has an account of the provider, else nothing |
| ToolkitWrappers.GithubWrapper | src/toolkits/toolkits/github/client.tsx:30-49 | with the flag on and the user loaded, the control shows iff some account's provider is exactly "github" |
| ToolkitWrappers.NotionWrapper | src/toolkits/toolkits/notion/client.tsx:30-56 | with the flag on and the user loaded, the control shows iff some account's provider is "oauth_notion" |
| ToolkitWrappers.NotionWrapperMatchesServer | src/toolkits/toolkits/notion/client.tsx:43-51 | the Notion wrapper looks for the provider id its server requests tokens for |
| ToolkitWrappers.GithubWrapperSpelling | src/toolkits/toolkits/github/client.tsx:38-45 | "github" differs from the server's "oauth_github", so a user whose only account carries the server's id sees nothing |
| NavUser.UserName | src/app/_components/sidebar/user.tsx:37-39 | the full name when present (even empty), else the address's part before the first '@', else "User" |
| NavUser.Initials | src/app/_components/sidebar/user.tsx:42 | the upper-cased first character of the name; empty for an empty name |
| NavUser.NavUser | src/app/_components/sidebar/user.tsx:25-42 | nothing unless signed in with a user; otherwise the name, the address or "", the avatar and the name's initials |
| NavUser.NameFromAddress | src/app/_components/sidebar/user.tsx:37-39 | without a full name the shown name is the address's local part |
| NavUser.NoNameInitials | src/app/_components/sidebar/user.tsx:37-42 | a user without a name or address gets "U", the initial of "User" |
| NavUser.EmptyNameNoInitials | src/app/_components/sidebar/user.tsx:42 | an empty full name gives empty initials, because the "U" fallback is never reached |
| AutoResume.ResumeCalled | src/app/_hooks/use-auto-resume.tsx:25-36 | resume is called iff auto-resume is on, the resume function exists and the last initial message is the user's; never with auto-resume off or no messages |
| AutoResume.MessagesAfterData | src/app/_hooks/use-auto-resume.tsx:38-48 | messages are set iff there is data whose first part is "append-message", and then to the initial messages followed by the parsed message |
| AutoResume.OnlyFirstPartRead | src/app/_hooks/use-auto-resume.tsx:42 | parts after the first are never read |
| AutoResume.AppendKeepsHistory | src/app/_hooks/use-auto-resume.tsx:46 | the initial messages stay as a prefix, with one message after them |
| AutoResume.ResumeReadsLastMessage | src/app/_hooks/use-auto-resume.tsx:28-32 | whether to resume depends on the last initial message alone |

## Left out

- Vendor internals are parameters of the model: the identity provider's APIs, the connection service's SDK, blob storage, the webhook signature check, Octokit and the Notion client. The connection SDK's method names are not visible either.
- The RPC timing middleware is not modelled, because it uses the wall clock, `Math.random` and `setTimeout`.
- JSX rendering and browser effects are not modelled: toasts, `window.location`, `window.history`, `window.confirm`, `console`. The model keeps the decisions and the state changes only.
- The webhook secret check at module load is not modelled, because it reads the environment once at start-up.
- Case mapping covers ASCII only; trimming removes ASCII white space plus the no-break space (U+00A0) and the byte-order mark (U+FEFF). Unicode case mapping and other Unicode white space are not modelled.
- ClerkWebhook.Handle: the table refuses a write only for a taken id, a taken e-mail or a missing row. Other database failures (a lost connection, a timeout) also give 500 in the source and are not modelled.
- Users.UserTable.UpdateUser: database failures other than the missing row and the unique e-mail column are not modelled.
- Api.ParseLimit: the page size is an integer here. The schema also accepts a fractional size such as 2.5, and then getChats fails when the database refuses the fractional `take` while getAccounts ignores the size. Neither behaviour is modelled.
- Lookups in plain objects (the provider map at src/server/api/routers/accounts.ts:16 and the service map at src/app/api/composio/connect/initiate/route.ts:39-42) see only their own keys. In JavaScript a key such as "constructor" finds an inherited value instead; that is not modelled.
- Users.IsEmail: approximates the schema library's e-mail pattern with an ASCII rule for the local part and a dotted domain.
- Chats.Listing, Chats.MessagesOf, Chats.ChatStore.BranchChat: the database's tie order for equal createdAt values is not known. The model uses a stable sort. The page properties hold for any order, but which messages a branch copies up to the cut message depends on that order among messages with the cut's timestamp.
- Chats.CursorStart: the database's cursor semantics are modelled as "start at the listed row with that id". A cursor outside the listing gives an empty page.
- Chats.ChatStore.DeleteChat: the database's cascade removal of the chat's messages is not modelled, so the message table is kept.
- Chats.ChatStore.BranchChat: the chat insert and the message insert are one step here. Partial failure between them is not modelled.
- The string values of the toolkit enum and of the tool-calling capability are not part of this model. Toolkit ids are the enum member names, and the capability is "tool-calling".
- The auto-add effect's body in toolkit-list is malformed as written (the effect is never closed). The model keeps its filter, selection and address rewrite only.
- ConnectDisconnect.Disconnect: reads the caller's id as a value, although the source calls `auth()` without `await` at that point.
- Middleware.Dispatch: `Protect` stands for the intended `auth.protect()`. As written, the middleware calls `auth().protect()` without `await`; under the asynchronous `auth()` the rest of the source awaits, that call would throw instead of protecting, so every non-public request would fail, signed in or not. The model does not capture that failure.
- Chats.ChatStore.CreateChat, Chats.ChatStore.UpdateChatVisibility, Chats.ChatStore.UpdateChatTitle, Chats.ChatStore.DeleteChat, Chats.ChatStore.BranchChat: database failures other than a taken id or a missing row are not modelled, among them a foreign-key failure for a `workbenchId` that names no workbench, if the schema declares that key.
- Errors thrown as non-`Error` values are not modelled. Every thrown error carries a message string.
- The toolkit servers' `!accessToken` checks after the `try` are unreachable, and are not modelled as separate branches.
- Provisioning: a concurrent request's insert is modelled only as the `raced` row a failed insert may find.
- ProvisionedUserIsCallers: unique addresses are promised only when that `raced` row's address is held by no other row, which the unique e-mail column guarantees of any committed row; the model takes the row as an input and does not enforce it.
- ClerkWebhook: a `user.deleted` event without an id is modelled with the empty id.
- The toolkits' system prompt text is an opaque string.
- Middleware: the route matcher's tolerance for trailing slashes and the `config.matcher` pattern are not modelled. Its case-insensitive match is modelled with ASCII lower-casing only.
- FileUpload: a form field that is not a blob, and a failing `arrayBuffer` read, are not modelled.
- FileUpload.Upload: FILE_MAX_SIZE is a parameter, because lib/constants is not part of this model.
- ConnectedAccounts: the refetch after a disconnect is not awaited in the source. The model returns whether it happens.
- AutoResume.MessagesAfterData: `JSON.parse` is a parameter. Its failure on malformed text (an uncaught throw) is not modelled.
- The GitHub and Notion wrappers read the user's external accounts as their provider strings only.
