# mysql-auth-proxy, modelled in Dafny

The mysql-auth-proxy sits behind Nginx's `auth_request`. For each request it:

- finds an API key in the request, either in the X-API-Key header or in segment 5 of the X-Original-URI path;
- looks up the user or Discord server the key belongs to, in a cache first and in MySQL on a miss;
- answers with headers only, naming the user's environment, name and ID, plus 200 or 401.

Automation can delete cache entries. A list of path prefixes lifts the key requirement. The repository holds several snapshots of the same logic, and each is modelled on its own terms.

The model is split into these modules:

- **Processor** (`processor.dfy`): a specification of the cache loop of `pkg/cache/processor.go`.
  - What one request does to the store: save, delete or get, decided by precedence. This is `Step`.
  - What a sequence of requests does. This is `Run`.
- **Cache** (`cache.dfy`): the `Cache` class of `pkg/cache/cache.go` and `processor.go`.
  - It holds the store as a map, a `running` flag standing for the non-nil channels, and the user-info source.
  - The loop goroutine runs as sequential calls: `Process` handles one request and `ProcessRequests` handles a sequence. Both are proved against `Step` and `Run`.
  - Also here: `Start`/`Stop`, `GetUserInfo`/`DelCacheKey` and `New`.
- **UserInfo**, **Users**, **Servers** (`userinfo.dfy`, `users.dfy`, `servers.dfy`): `pkg/userinfo`.
  - The user record, the default user and environment normalisation.
  - The DSN and the connection handle.
  - The older `GetInfo`/`GetServer` of `userinfo.go`, and the newer ones of `users.go` and `servers.go`.
  - A database query is abstract: an error, or a sequence of rows, each scanned or failed.
- **Functions** and **ParseKey** (`functions.dfy`): the middleware of `pkg/webserver/functions.go`.
  - Key masking and key selection.
  - X-Forwarded-For normalisation.
  - The request counters and the response wrapper.
- **Start** (`start.dfy`): from `pkg/webserver/start.go`.
  - The no-auth path loop: a prefix check over a replaceable list, driven by two kinds of message.
  - The defaulting rules of `LoadConfig`.
- **HandlersNginx**, **HandlersDelete**, **Handlers** (`handlers_nginx.dfy`, `handlers_delete.dfy`, `handlers.dfy`):
  - the cache-aside handlers;
  - the bulk delete;
  - the older snapshot of both.
- Support modules:
  - **Wrappers**: `Option`.
  - **Text**: the pieces of Go's `strings` and `strconv` the proxy uses, over `seq<char>`, with their own proofs. These include `Split` as the inverse of `Join`, and the decimal round trip of `Itoa`.
  - **Http**: requests, responses and `expvar` counters, reduced to their state. `WriteHeader` keeps the first status, as net/http does.
  - **KeyCache**: the golift.io cache behind the handlers, reduced to `Get`, `Save` with a prune flag, and `Delete`.

Inputs that the Go code gets from the outside world are passed in as parameters:

- **Clock:** readings are integer parameters. `now` is the reading a handler or cache save uses, `clock` gives one reading per request of a sequence, and `start` is the reading a handler takes when the request begins.
- **Database driver:** whether `sql.Open` accepts the DSN is `driverOk`.
- **Database lookups:** the result of a lookup a handler would make is `user`/`err`.
- **Config decoders:** the file and environment decoders give `fileOk`, `envOk` and `decoded`.
- **Secret files:** the readable files are a map, `files`.
- **`path.Dir`:** is `uriDir`.

A Go panic is a `panicked` result. A send on a nil channel blocks forever, so it has no answer (`None`).

Where the code and its documentation disagree, the model follows the code:

- The item a cache answer carries is the live entry, not a copy.
- `pkg/cache` has no pruner and no statistics.
- `cache.go`'s `GetUserInfo`/`DelCacheKey` read fields that `processor.go`'s records do not have (`ctx`, `ret.UserInfo`, `ret.error`). They are modelled as the get and delete requests they send, returning the loop's response.
- The `Cache` struct declares a `users` map, but the loop uses `c.cache`. The store is modelled as the loop uses it.

## Model

| member | source | states |
|---|---|---|
| Processor.StepSave | pkg/cache/processor.go:49-52 | data present means save even with `del` set: the key maps to a new item holding the data and the clock reading, the response returns that item, and `present` is true iff the key was there before |
| Processor.StepDelete | pkg/cache/processor.go:53-57 | no data with `del`: the key is absent afterwards, no item is returned, and `present` says whether it was there before |
| Processor.StepGet | pkg/cache/processor.go:58-60 | no data and no `del`: the store is unchanged, the stored item is returned, and `present` is true iff the key is stored iff an item comes back |
| Processor.StepFrame | pkg/cache/processor.go:48-61 | a request changes no key but its own |
| Processor.Step | pkg/cache/processor.go:47-61 | one iteration of the loop, as a function of the store, the request and the clock reading: save when data is present, else delete when `del` is set, else get, with one response; its properties are the Step lemmas |
| Processor.Run | pkg/cache/processor.go:44-62 | the loop over a request sequence, each request stepped on the store the earlier ones left, one response each; its properties are the Run lemmas |
| Processor.RunLength | pkg/cache/processor.go:44-62 | a sequence of requests gets exactly one response per request |
| Processor.RunSnoc | pkg/cache/processor.go:47-62 | serving one more request appends exactly that request's response and applies its step to the store |
| Processor.RunResponseAt | pkg/cache/processor.go:47-62 | response i is what request i gets from the store left by the requests before it, so responses come in request order |
| Processor.RunFrame | pkg/cache/processor.go:44-62 | a key no request names is the same after the whole sequence |
| Cache.Cache.constructor | pkg/cache/cache.go:33 | a new cache holds the user-info source, an empty store and no running loop |
| Cache.Cache.StartLoop | pkg/cache/processor.go:18-24 | start makes a fresh, empty store and a running loop |
| Cache.Cache.StopLoop | pkg/cache/processor.go:26-31 | stop ends the loop and keeps the store; stopping a stopped loop panics |
| Cache.Cache.Clean | pkg/cache/processor.go:34-41 | clean deletes the entries one key at a time until none is left, then drops the map; the loop state is unchanged |
| Cache.Cache.Process | pkg/cache/processor.go:48-61 | one request handled by the loop changes the store and answers exactly as Step says |
| Cache.Cache.ProcessRequests | pkg/cache/processor.go:44-62 | the loop over a request sequence ends with Run's store and Run's responses, one per request, in order |
| Cache.Cache.Start | pkg/cache/cache.go:40-53 | a running cache is left alone with no error; a stopped one whose Open fails returns the wrapped connecting error and stays stopped; otherwise old entries are dropped and the loop resumes with an empty store, even after Stop(false) |
| Cache.Cache.Stop | pkg/cache/cache.go:58-65 | the database is closed, the loop always ends stopped, and only clean=true empties the store; stopping a stopped cache panics |
| Cache.Cache.Send | pkg/cache/cache.go:69-70 | a request sent to a running loop gets Step's answer; on a stopped cache the send blocks: no answer and nothing changes |
| Cache.Cache.GetUserInfo | pkg/cache/cache.go:68-73 | one get request for the key: the store is unchanged and the answer is the key's item and presence |
| Cache.Cache.DelCacheKey | pkg/cache/cache.go:76-81 | exactly one request with `del` for the key: the key is gone and the single answer has no item and says whether the key was there |
| Cache.New | pkg/cache/cache.go:27-37 | when userinfo.New fails the error is wrapped and no cache is made; otherwise an empty, running cache over the config |
| UserInfo.DefaultUser | pkg/userinfo/userinfo.go:93-100 | the default user has environment "live", username "", user ID "-1" and no API key |
| UserInfo.Environment | pkg/userinfo/userinfo.go:124-126 | the stored environment is kept only when developmentEnv is exactly "1"; anything else gives "live" |
| UserInfo.ServerUser | pkg/userinfo/userinfo.go:145-157 | a server row's user takes its API key, name and ID, with the normalised environment |
| UserInfo.FirstServer | pkg/userinfo/userinfo.go:144-170 | the user of the first scanned row whose parsed server equals the ID; characterised by FirstServerSpec |
| UserInfo.FirstServerSpec | pkg/userinfo/userinfo.go:144-170 | the chosen row exists iff some scanned row's parsed server equals the ID, and it is the first such row in order |
| UserInfo.HostPart | pkg/userinfo/userinfo.go:73-76 | the host is wrapped as "@tcp(host)" unless it starts with "@"; either way the host part starts with "@" |
| UserInfo.HostPartIdempotent | pkg/userinfo/userinfo.go:73-76 | wrapping a host part again leaves it unchanged |
| UserInfo.DSN | pkg/userinfo/userinfo.go:73-78 | the DSN built from the SQL config; its layout is DSNShape |
| UserInfo.DSNShape | pkg/userinfo/userinfo.go:73-78 | the DSN is user ":" pass, then the host part, then "/" and the database name, in that order |
| UserInfo.UI.constructor | pkg/userinfo/userinfo.go:62 | a new UI holds the config and no connection |
| UserInfo.UI.Open | pkg/userinfo/userinfo.go:68-86 | any old handle is closed; success holds a new handle opened with the DSN; failure returns the connecting error naming the host |
| UserInfo.UI.Close | pkg/userinfo/userinfo.go:89-91 | the handle is closed; with no handle the nil dereference panics |
| UserInfo.New | pkg/userinfo/userinfo.go:57-65 | no config gives ErrNoConfig and no UI; otherwise a UI over the config together with Open's outcome |
| UserInfo.GetInfo | pkg/userinfo/userinfo.go:103-131 | older GetInfo: a query or rows error gives no user; no row gives the default user with no API key and ErrNoUser; a scan error gives no user; success gives the row's user, environment normalised, with the request key |
| UserInfo.GetServer | pkg/userinfo/userinfo.go:133-173 | older GetServer: a query or rows error gives no user; otherwise the first scanned row whose parsed server equals the ID gives the user, skipping rows that fail to scan, else the default user with no error |
| Users.GetInfo | pkg/userinfo/users.go:17-65 | a query or rows error gives no user and a wrapped error; no row gives the default user carrying the request key with ErrNoUser; a scan error gives no user; success gives the scanned name and ID, normalised environment and the request key, with no error; every outcome is one of three shapes |
| Servers.GetServer | pkg/userinfo/servers.go:17-75 | a query or rows error gives no user and a wrapped error; otherwise the first row in order that scanned and whose parsed server equals the ID, with a parse failure reading as empty, gives the user; no match gives the default user with no error, never ErrNoUser |
| Functions.MaskAPIKey | pkg/webserver/functions.go:91-98 | the length result is always len(key); keys shorter than 10 come back unmasked; longer ones become first 4 + "..." + last 2, always 9 characters |
| Functions.MaskAPIKeyStable | pkg/webserver/functions.go:91-98 | a masked key is at most 9 characters and masks to itself |
| Functions.ChooseKey | pkg/webserver/functions.go:58-63 | a 36-character X-API-Key is used as-is; otherwise, when the URI has more than 5 "/"-segments, segment 5 up to its first "?"; otherwise the header |
| Functions.ChooseKeyFromURI | pkg/webserver/functions.go:49-63 | for any URI of five segments, then key?query, then further segments, with a header that is not a full key, the chosen key is exactly `key` |
| Functions.ClientIP | pkg/webserver/functions.go:80-85 | a non-empty X-Forwarded-For gives its first comma-separated element trimmed of whitespace; an empty one gives RemoteAddr before its last ':' with brackets trimmed; no ':' is the panic path |
| Functions.ClientIPHostPort | pkg/webserver/functions.go:81 | an IPv4 "host:port" remote address gives the host |
| Functions.ClientIPBracketed | pkg/webserver/functions.go:81 | an IPv6 "[host]:port" remote address gives the host without brackets |
| Functions.ClientIPFirstHop | pkg/webserver/functions.go:84 | a forwarded chain whose first element has no comma gives that element, whitespace-trimmed, whatever follows it |
| Functions.FixForwardedFor | pkg/webserver/functions.go:78-89 | X-Forwarded-For is replaced by the client address and nothing else changes; a remote address without ':' panics with the request untouched |
| Functions.ResponseCounter | pkg/webserver/functions.go:41 | the counter for a status is "Response ", its decimal code, a space and its status text; it always starts with "Response " |
| Functions.ResponseCounterDistinct | pkg/webserver/functions.go:30-41 | a response counter never collides with Total, Deletes, X-Server or Invalid Key |
| Functions.ResponseCounterInjective | pkg/webserver/functions.go:41 | different status codes are counted under different counters |
| Functions.Tallied | pkg/webserver/functions.go:30-38 | the counters after the request-side adds: Deletes for DELETE, X-Server when the header is set, then Total |
| Functions.Counted | pkg/webserver/functions.go:30-41 | the counters after the whole middleware: Tallied, then the final status's response counter; its gains are CountedGains |
| Functions.FinalStatus | pkg/webserver/functions.go:39-40 | the wrapper's status after the next handler: 200 when it wrote none, the status it wrote otherwise |
| Functions.CountedGains | pkg/webserver/functions.go:30-41 | one request adds exactly one to Total, one to Deletes iff DELETE, one to X-Server iff that header is set, one to its status's response counter, and nothing to any other counter |
| Functions.ResponseWrapper.constructor | pkg/webserver/functions.go:39 | the wrapper starts at status 200 over the response |
| Functions.ResponseWrapper.WriteHeader | pkg/webserver/functions.go:23-26 | the wrapper records the code and passes it to the response |
| Functions.CountRequests | pkg/webserver/functions.go:28-43 | the counters grow as Counted says, keyed by the status the next handler wrote, or 200 when it wrote none |
| Functions.TallyRequest | pkg/webserver/functions.go:30-38 | before the next handler runs, Deletes grows by one iff the method is DELETE, X-Server by one iff the header is set, and Total by one |
| Functions.ServeNext | pkg/webserver/functions.go:39-40 | the next handler writes through a fresh wrapper that starts at 200; the wrapper ends holding the status written, and the response gets it unless one was already sent |
| ParseKey.ParseAPIKey | pkg/webserver/functions.go:47-74 | the chosen key becomes the only route variable; the next handler runs iff it is 36 characters; otherwise Invalid Key is counted once and noKeyReply answers |
| ParseKey.SetLogURI | pkg/webserver/functions.go:49-56 | X-Uri becomes path.Dir of the original URI when it has more than 5 segments, the URI itself otherwise; nothing else changes |
| ParseKey.RejectKey | pkg/webserver/functions.go:67-69 | Invalid Key grows by exactly one, then noKeyReply's headers and status |
| Start.NoAuthExtends | pkg/webserver/start.go:238-246 | a URI below a no-auth prefix stays no-auth however it continues |
| Start.EmptyPrefixOpensAll | pkg/webserver/start.go:238-246 | an empty prefix in the list makes every URI no-auth |
| Start.NoAuth | pkg/webserver/start.go:238-246 | checkPath as a function of the prefix list; its properties are NoAuthExtends, EmptyPrefixOpensAll and PathLoop.CheckPath |
| Start.Answer | pkg/webserver/start.go:249-255 | one message to the path loop: a check is answered with checkPath and keeps the list, a set replaces the list and is answered true |
| Start.Serve | pkg/webserver/start.go:248-256 | the path loop over a message sequence, one answer per message; its properties are ServeLength, ServeSnoc, CheckAfterSet and ChecksOnly |
| Start.PathLoop.CheckPath | pkg/webserver/start.go:238-246 | true iff some configured prefix is a prefix of the URI; an empty list gives false |
| Start.PathLoop.Handle | pkg/webserver/start.go:249-255 | a set-paths message replaces the whole list and answers true; a check message answers the check and leaves the list unchanged |
| Start.PathLoop.Run | pkg/webserver/start.go:248-256 | a message sequence gets exactly one answer per message, in order, and ends with Serve's list |
| Start.ServeLength | pkg/webserver/start.go:248-256 | every message to the path loop receives exactly one answer |
| Start.ServeSnoc | pkg/webserver/start.go:248-256 | serving one more message appends exactly that message's answer |
| Start.CheckAfterSet | pkg/webserver/start.go:250-254 | after a set-paths message, the set is answered true and every following check is answered against the new list |
| Start.ChecksOnly | pkg/webserver/start.go:250-251 | a run of checks leaves the list alone and answers each check against it |
| Start.PathLoop.RequiresAPIKey | pkg/webserver/start.go:260-263 | exactly the negation of checkPath over the current list |
| Start.LoadConfig | pkg/webserver/start.go:63-103 | loading succeeds iff the config file (when named) and the environment decode, the SQL section is present, and each secret file needed for an empty password or secret is readable; a decode or missing-SQL-section failure returns that error; an empty listen address becomes "0.0.0.0:8080"; the DB password and shared secret come from their files, trimmed, only when empty and the env var is set; an unreadable such file is fatal |
| HandlersNginx.UserHeaders | pkg/webserver/handlers_nginx.go:94-98 | X-API-Key, X-Environment, X-Username and X-UserID echo the user's fields and Age the elapsed seconds; other headers are kept |
| HandlersNginx.Hit | pkg/webserver/handlers_nginx.go:77 | the cache answered with an item holding data |
| HandlersNginx.Shown | pkg/webserver/handlers_nginx.go:77-92 | the user whose fields are echoed: the cached one on a hit, else the fetched one, else DefaultUser |
| HandlersNginx.AgeOf | pkg/webserver/handlers_nginx.go:69-98 | Age is measured from the item's time on a hit and from the reading taken when the request began on a miss, so a miss reports the time the lookup took |
| HandlersNginx.UsesNoKeyReply | pkg/webserver/handlers_nginx.go:101 | noKeyReply runs iff the shown user ID is "-1" and the error is nil or not-found |
| HandlersNginx.GetAnyStatus | pkg/webserver/handlers_nginx.go:101-119 | the status handleGetAny writes: noKeyReply's status when it runs, 200 otherwise |
| HandlersNginx.Cached | pkg/webserver/handlers_nginx.go:77-86 | the cache after handleGetAny: unchanged on a hit or another error; a found user saved durable and a not-found one saved with Prune true, both stamped with the clock reading |
| HandlersNginx.GetAnyHeaders | pkg/webserver/handlers_nginx.go:94-113 | the shown user's environment, name and ID and the Age are written; X-API-Key is the route key with X-Key and X-Length its mask and length when noKeyReply runs, else the user's key and no other header is added |
| HandlersNginx.KeyReplyHeaders | pkg/webserver/handlers_nginx.go:110-113 | X-Key is the masked key, X-API-Key the key and X-Length its length; other headers are kept |
| HandlersNginx.NoKeyStatus | pkg/webserver/handlers_nginx.go:115-119 | 401 iff the original URI requires a key, 200 iff it is a no-auth path |
| HandlersNginx.DbErrorAnswersDefault | pkg/webserver/handlers_nginx.go:80-105 | a database error on a miss skips noKeyReply and answers 200 with the default user's values |
| HandlersNginx.KnownUserAnswersOK | pkg/webserver/handlers_nginx.go:101-105 | a user whose ID is not "-1" is always answered 200 |
| HandlersNginx.NoKeyReply | pkg/webserver/handlers_nginx.go:109-120 | sets X-Key to the masked key, X-API-Key to the key and X-Length to its length, then 401 iff RequiresAPIKey of X-Original-URI, else 200 |
| HandlersNginx.EchoUser | pkg/webserver/handlers_nginx.go:94-98 | the user's fields and the Age are written and nothing else |
| HandlersNginx.SaveFetched | pkg/webserver/handlers_nginx.go:80-86 | not-found is cached with Prune true, success with Prune false, and another error caches nothing |
| HandlersNginx.Reply | pkg/webserver/handlers_nginx.go:94-105 | the chosen user's fields are echoed, then noKeyReply iff the user ID is "-1" and the error is nil or not-found, else 200 |
| HandlersNginx.HandleGetAny | pkg/webserver/handlers_nginx.go:66-106 | the cache ends as Cached says: a hit is served with no save; a miss saves a not-found result with Prune true, a found one with Prune false, and nothing on another error; the headers end as GetAnyHeaders says, with Age from the item's time on a hit and from the request's start on a miss; the status is GetAnyStatus, written once; no body |
| HandlersNginx.HandleGetKey | pkg/webserver/handlers_nginx.go:36-44 | handleGetAny over the users cache keyed by the route's API key: the users cache ends as Cached says for that key's lookup, the headers as GetAnyHeaders, the status as GetAnyStatus, no body |
| HandlersNginx.HandleServer | pkg/webserver/handlers_nginx.go:26-34 | handleGetAny over the servers cache keyed by the X-Server header: the servers cache ends as Cached says for that header's lookup, the headers as GetAnyHeaders with the route's API key, the status as GetAnyStatus, no body |
| HandlersDelete.LastNamed | pkg/webserver/handlers_delete.go:34-42 | the named user exists iff some looked-up item holds a user whose ID is not "-1" |
| HandlersDelete.Latest | pkg/webserver/handlers_delete.go:28-36 | the `user` variable after the scan: the last looked-up item holding a user, DefaultUser before any |
| HandlersDelete.LatestIsNamed | pkg/webserver/handlers_delete.go:34-42 | whenever the latest user found is not the default one, it is the last non-default user, so the last such write wins |
| HandlersDelete.ScanStep | pkg/webserver/handlers_delete.go:30-43 | one more item of the scan updates X-UserID/X-Username exactly as the last named user of the longer prefix says |
| HandlersDelete.NameUser | pkg/webserver/handlers_delete.go:39-42 | X-UserID and X-Username are written only for a non-default user |
| HandlersDelete.DeletedHeaders | pkg/webserver/handlers_delete.go:45-47 | X-Environment "deleted", JSON content type and the Age; X-UserID/X-Username only for a named user |
| HandlersDelete.LookupAll | pkg/webserver/handlers_delete.go:27-43 | one slot per key, in order, holding that key's lookup, with the named user's headers written |
| HandlersDelete.DeleteAll | pkg/webserver/handlers_delete.go:32 | the deferred deletes remove every listed key |
| HandlersDelete.HandleDelKey | pkg/webserver/handlers_delete.go:24-54 | one slot per comma-separated key holding its lookup before any delete; the last non-default user named; Age is the key count; X-Environment "deleted" and status 200; every key deleted afterwards |
| Handlers.NotFoundIsUnauthorized | pkg/webserver/handlers.go:69-73 | by Go's precedence, not-found on a miss always takes the 401 path |
| Handlers.UsesNoKeyReply | pkg/webserver/handlers.go:69 | the older condition as Go groups it: (ID "-1" and no error) or not-found |
| Handlers.SavedOnMiss | pkg/webserver/handlers.go:53-60 | the cache after the older handleGetAny: unchanged on a hit or another error; otherwise the fetched user saved durable with the clock reading |
| Handlers.OlderHeaders | pkg/webserver/handlers.go:62-73 | the user's four fields and the Age are written; when the older noKeyReply runs X-Key and X-Length are the route key's mask and length, else no other header is added |
| Handlers.OlderStatus | pkg/webserver/handlers.go:69-73 | 401 iff the older noKeyReply runs, 200 iff it does not |
| Handlers.OlderBody | pkg/webserver/handlers.go:131-141 | the body text: "invalid or no key provided" when the older noKeyReply runs, empty otherwise |
| Handlers.KeyReplyHeaders | pkg/webserver/handlers.go:133-135 | the older noKeyReply sets X-Key to the masked key and X-Length to its length |
| Handlers.NoKeyReply | pkg/webserver/handlers.go:131-141 | the older noKeyReply always answers 401 with the body "invalid or no key provided" |
| Handlers.HandleGetAny | pkg/webserver/handlers.go:45-74 | older handleGetAny: it panics iff a miss brings no user; the cache ends as SavedOnMiss says; a panic leaves the response untouched; otherwise the headers are OlderHeaders, with Age from the item's time on a hit and from the request's start on a miss, the status OlderStatus and the body OlderBody |
| Handlers.SaveFetched | pkg/webserver/handlers.go:56-60 | the older miss path caches the fetched user iff the error is nil or not-found |
| Handlers.Reply | pkg/webserver/handlers.go:62-73 | the user's fields are echoed, then the older noKeyReply iff (ID "-1" and no error) or not-found, else 200 |
| Handlers.HandleGetKey | pkg/webserver/handlers.go:35-43 | the older handleGetAny over the users cache keyed by the route's API key, with the same panic, cache, header, status and body outcome for that key's lookup |
| Handlers.HandleServer | pkg/webserver/handlers.go:25-33 | the older handleGetAny over the servers cache keyed by X-Server, with the same panic, cache, header, status and body outcome for that header's lookup |
| Handlers.HandleDelSrv | pkg/webserver/handlers.go:76-99 | the server key is deleted; X-UserID/X-Username only for a non-default user; X-Environment "deleted", Age "1", status 200; encoding a nil item panics |
| Handlers.DeletedItem | pkg/webserver/handlers.go:107-108 | a key repeated in the list gets nothing the second time; otherwise its cached item |
| Handlers.DeleteSlot | pkg/webserver/handlers.go:108 | one key is deleted and its slot alone receives what the delete returned |
| Handlers.DeleteEach | pkg/webserver/handlers.go:107-118 | each key is deleted at once and its slot holds what that delete returned |
| Handlers.HandleDelKey | pkg/webserver/handlers.go:101-129 | older handleDelKey: one slot per key, immediate deletes, every key gone, the last non-default user named, Age the key count, status 200 |
| Text.SplitJoin | pkg/webserver/functions.go:50 | strings.Split undoes strings.Join on separator-free pieces |
| Text.Split | pkg/webserver/functions.go:50 | at least one part, no part holds the separator, joining the parts gives back the string, and the first part is the text before the first separator |
| Text.IndexOf | pkg/webserver/functions.go:61 | the first index of the character, or -1 iff it does not occur |
| Text.IndexOfIsFirst | pkg/webserver/functions.go:61 | an index holding the character with none before it is the one IndexOf returns |
| Text.LastIndexOf | pkg/webserver/functions.go:81 | the last index of the character, or -1 iff it does not occur |
| Text.LastIndexOfIsLast | pkg/webserver/functions.go:81 | an index holding the character with none after it is the one LastIndexOf returns |
| Text.TrimLeft | pkg/webserver/functions.go:81 | a suffix of the string; everything dropped is in the cut set and what remains does not start with a cut character |
| Text.TrimRight | pkg/webserver/functions.go:81 | a prefix of the string; everything dropped is in the cut set and what remains does not end with a cut character |
| Text.Trim | pkg/webserver/functions.go:81 | what remains neither starts nor ends with a cut character |
| Text.TrimIdempotent | pkg/webserver/functions.go:81 | trimming twice is trimming once |
| Text.TrimSpace | pkg/webserver/functions.go:84 | Trim with the ASCII whitespace set |
| Text.NatToString | pkg/webserver/handlers_nginx.go:98 | at least one character, all decimal digits |
| Text.Itoa | pkg/webserver/handlers_nginx.go:98 | at least one character, starting with "-" iff the number is negative |
| Text.NatToStringRoundTrip | pkg/webserver/handlers_nginx.go:98 | the decimal digits strconv.Itoa writes read back as the number |
| Http.Get | pkg/webserver/functions.go:49 | Header.Get: the header's value, or "" when it is not set |
| Http.Written | pkg/webserver/functions.go:23-26 | after WriteHeader a status is always set: the new code when none was sent, the earlier one otherwise |
| Http.Request.SetHeader | pkg/webserver/functions.go:53-55 | Header.Set replaces exactly one header and leaves the route variables alone |
| Http.Request.SetVars | pkg/webserver/functions.go:65 | mux.SetURLVars: the route variables become exactly the given map; the headers are kept |
| Http.Response.Set | pkg/webserver/handlers_nginx.go:94-97 | Header().Set replaces exactly one response header; status and body are kept |
| Http.Response.WriteHeader | pkg/webserver/handlers_nginx.go:115-119 | the status becomes Written of the old one, so the first WriteHeader wins; headers and body are kept |
| Http.Response.Write | pkg/webserver/handlers.go:138 | the text is appended to the body; headers and status are kept |
| Http.Counters.Add | pkg/webserver/functions.go:31-41 | expvar Map.Add: the named counter grows by the delta, starting from 0, and no other counter changes |
| Http.Count | pkg/webserver/functions.go:31-41 | a counter's value, 0 when it was never added to |
| KeyCache.Store.Get | pkg/webserver/handlers_nginx.go:30-40 | the cache's item for the key, if any, and no change |
| KeyCache.Store.Save | pkg/webserver/handlers_nginx.go:81-85 | the key maps to a new item holding the data, the clock reading and the prune flag; nothing else changes |
| KeyCache.Store.Delete | pkg/webserver/handlers_delete.go:32 | the key is gone and the item it held, if any, is returned |

## Left out

- Goroutines, channels and `select`: the cache loop and the path loop are sequential calls. Blocking on a nil channel is the `None` answer. Closing a nil channel, and the other nil dereferences, are `panicked` results.
- golift.io/cache: pruning, jitter, expiry, hit counts and `ExpStats` are not modelled. `KeyCache.Store` keeps only what the handlers save, with the prune flag they choose.
- SQL: the queries, the driver and `json.Unmarshal` of the discord column are abstract. A query is its outcome, and a row's parsed server is an `Option`.
- Wall-clock time: `time.Now`/`time.Since` are integer parameters. The X-Request-Time header and the Prometheus timers are not modelled.
- Logging: the `Printf` lines, including the masked-key log line in handleGetAny, are not modelled.
- Metrics: the `u.exp` counters and Prometheus metrics in `users.go`/`servers.go` are not modelled, and neither is pkg/exp. The `s.exp` counters of countRequests and parseAPIKey are modelled.
- JSON bodies: the JSON response bodies of handleDelKey and handleDelSrv are not modelled. Only their headers, status and cache effect are.
- Wiring: `Start`, `startWebServer`, `setupLogs` and `rotateErrLog` in start.go are process and server wiring, and are not modelled. Neither are main.go, serve.go, handlers_stats.go and the bindata file system.
- `path.Dir` for the log-only X-Uri header is the parameter `uriDir`.
- Header names are taken as canonical. Whitespace is ASCII whitespace.
- Strings are byte sequences: each `char` stands for one byte of the Go string, so lengths, indices and slices count bytes. UTF-8 decoding is not modelled.
- Cache saves: golift.io/cache stamps an item with its own clock. Here the save uses the same reading `now` at which the handler measures Age.
- HandlersNginx.HandleGetAny: requires that a lookup reporting no error or not-found also returns a user, as `Users.GetInfo` and `Servers.GetServer` ensure. A typed-nil user saved into the cache is not modelled.
- HandlersNginx.HandleGetKey: carries the same lookup requirement as HandlersNginx.HandleGetAny.
- HandlersNginx.HandleServer: carries the same lookup requirement as HandlersNginx.HandleGetAny.
- Functions.CountRequests: the next handler's only modelled effect is the status it writes, at most once.
- Functions.StatusText: covers 200, 401, 404, 405 and 500. Other codes get "".
- Cache.Cache.Send: the item in a response is the live entry. Copy isolation is not claimed.
- Cache.Cache.GetUserInfo: returns the loop's response. It does not return the `UserInfo`/error pair the source text reads, because those fields do not exist on the response record.
