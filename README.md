# drone-cache storage backends — a Dafny model

This project models the backend layer of drone-cache, a cache plugin whose backends store archives under keys. Three pieces are covered:

- **The initialisers in `cache/backend/backend.go`.**
  - `InitializeS3Backend`: the TLS flag and the credential choice.
  - `InitializeFileSystemBackend`: the lexical check of the cache root (with a model of Go's `path.Clean`), then the existence check.
  - `InitializeFTPBackend`: builds the SSH auth list, then parses the key, dials, and opens the sftp subsystem, in that order, closing the SSH client when sftp fails.
- **The SFTP backend in `cache/backend/ftp.go`.** `Get`, `Put` and `ensureDir` run against an abstract remote file tree. The tree is a map from path to bytes, a set of directories, the open handles and a log of calls received.

Files:

- `wrappers.dfy`: `Option` and `Result`, standing in for Go's `(value, error)` pairs.
- `strings.dfy`: `strings.HasPrefix`, `strings.TrimRight`, and `%d` formatting of an `int` together with its inverse.
- `gopath.dfy`: `path.Clean`, written as operations on the list of path elements, and `filepath.Dir`.
- `ftp.dfy`: the tree as a value, named `Tree`, with spec functions for each remote step and for `Put`/`Get`. It also holds the `RemoteTree` class (the sftp client) and the `FtpBackend` class, whose methods are proved against those spec functions.
- `backend.dfy`: the three initialisers. The S3 and filesystem ones are functions. The FTP one is a method over an `SshNetwork` object. That object fixes each external step's outcome when it is built and counts the open SSH and sftp clients.

External effects are parameters:

- `os.Stat` on the cache root is the predicate `rootExists`.
- Key parsing, `ssh.Dial` and `sftp.NewClient` succeed or fail as the `SshNetwork` fields say.
- The caller's `io.ReadSeeker` is a `Source`: the bytes it yields, and whether reading ends in an error.

Three behaviours of the code that are easy to assume otherwise:

- `InitializeS3Backend` never fails, even with an empty bucket.
- An FTP config with neither password nor key is not refused; it dials with an empty auth list.
- An empty cache root passes the lexical check, because `Clean("")` is `"."`. Only the `Stat` can refuse it.

## Model

| member | source | states |
|---|---|---|
| Strings.TrimRight | cache/backend/backend.go:91 | the result is a prefix of the input; it does not end in a cut-set character; everything removed is in the cut set; the result is empty exactly when every character is in the cut set |
| Strings.HasPrefix | cache/backend/backend.go:71 | `strings.HasPrefix`: no ensures of its own; InitializeS3Backend's contract and S3TlsFollowsScheme carry what the TLS decision needs from it, and HasPrefixOfConcat shows `p + rest` always has prefix `p` |
| Strings.HasPrefixOfConcat | cache/backend/backend.go:71 | every string `p + rest` has prefix `p` |
| Strings.NatToDecimal | cache/backend/backend.go:131 | `%d` of a non-negative int is a non-empty digit string with no leading zero unless the value is 0 |
| Strings.IntToDecimal | cache/backend/backend.go:131 | `%d` of an int: the result is a decimal, an optional '-' followed by digits; IntDecimalRoundTrip proves it reads back as the int |
| Strings.NatDecimalRoundTrip | cache/backend/backend.go:131 | reading back the printed digits gives the number |
| Strings.IntDecimalRoundTrip | cache/backend/backend.go:131 | reading back `%d` of any int, negative ones included, gives the int |
| GoPath.CleanShape | cache/backend/backend.go:91 | `Clean` never returns "" and its result is rooted exactly when the input is |
| GoPath.CleanIdempotent | cache/backend/backend.go:91 | `Clean(Clean(s)) == Clean(s)` for every s |
| GoPath.CleanAllSlashesIff | cache/backend/backend.go:91-92 | a cleaned path is all slashes exactly when it is "/", and that happens exactly when s is rooted and no element survives resolution |
| GoPath.ResolveDotsRooted | cache/backend/backend.go:91 | under a root, a list made only of "." and ".." resolves to no elements |
| GoPath.RenderRoundTrip | cache/backend/backend.go:91 | a normal element list rendered and cleaned again gives back the same rootedness and elements |
| GoPath.Clean | cache/backend/backend.go:91 | Go's `path.Clean`, written as split into elements, resolve "." and ".." against a stack, render; no ensures of its own; its properties are in CleanShape, CleanIdempotent, CleanAllSlashesIff, ResolveDotsRooted and RenderRoundTrip |
| GoPath.Dir | cache/backend/ftp.go:48 | `filepath.Dir`: Clean of everything up to and including the last slash; no ensures of its own; DirIsClean states its result is clean, DirABC gives a concrete value |
| GoPath.DirIsClean | cache/backend/ftp.go:48 | what `filepath.Dir` returns is already clean: cleaning it again changes nothing |
| Ftp.MkdirAllEffect | cache/backend/ftp.go:50 | MkdirAll keeps the files and keeps the tree well formed; every directory it adds is `d` or one of the parents it recurses on; when it succeeds, `d` is a directory |
| Ftp.MkdirAllSucceeds | cache/backend/ftp.go:50 | MkdirAll succeeds whenever neither `d` nor any parent it recurses on is a regular file |
| Ftp.MkdirParent | cache/backend/ftp.go:50 | the path sftp's MkdirAll recurses on first: trailing slashes and the last element removed, or none when at most a leading slash is left; it is strictly shorter than `d`, so the recursion ends |
| Ftp.MkdirPath | cache/backend/ftp.go:50 | `d` followed by every path MkdirAll(d) recurses on; it starts with `d`; MkdirAllEffect adds directories only from it and MkdirAllSucceeds needs no file on it |
| Ftp.EnsureDirEffect | cache/backend/ftp.go:47-56 | when the parent stats, nothing changes; files are never touched; on success the parent exists |
| Ftp.CopyEffect | cache/backend/ftp.go:37-44 | Create, copy and Close on a tree: the directories are unchanged and the tree stays well formed; PutOkIff, PutGetRoundTrip and PutOverwrite carry what it does to files |
| Ftp.PutEffect | cache/backend/ftp.go:32-45 | Put as a function of the tree: the tree stays well formed and no directory is removed; its outcome and effect on files are stated by PutOkIff, PutFailureBeforeCopyKeepsFiles, PutGetRoundTrip, PutKeepsOtherFiles, PutOverwrite and PutCreatesParents |
| Ftp.GetEffect | cache/backend/ftp.go:24-29 | Get as a function of the tree: the content of `k` when `k` stats and is a regular file, nothing otherwise; no ensures of its own; FtpBackend.Get is proved against it and PutGetRoundTrip relates it to Put |
| Ftp.PutOkIff | cache/backend/ftp.go:32-45 | Put returns nil exactly when ensureDir succeeds, Create succeeds and the copy succeeds |
| Ftp.PutFailureBeforeCopyKeepsFiles | cache/backend/ftp.go:33-40 | a failed ensureDir or a failed Create leaves every file unchanged |
| Ftp.PutGetRoundTrip | cache/backend/ftp.go:24-44 | after a successful `Put(k, src)`, `Get(k)` yields exactly src's bytes |
| Ftp.PutKeepsOtherFiles | cache/backend/ftp.go:32-45 | Put(k) does not change what Get returns for any other key |
| Ftp.PutOverwrite | cache/backend/ftp.go:37-44 | after a successful Put(k, s1), Put(k, s2) of a sound source succeeds and Get(k) yields s2's bytes alone |
| Ftp.PutCreatesParents | cache/backend/ftp.go:33-53 | for a clean key, when nothing on MkdirAll's path to Dir(k) is a file, and k is neither a directory nor on that path, Put of a sound source succeeds, leaves Dir(k) a directory, and Get(k) yields the bytes |
| Ftp.PutCallOrder | cache/backend/ftp.go:32-45 | Create is sent exactly when ensureDir succeeded; the copy writes exactly when Create also succeeded; after a write, the last call closes the handle written to |
| Ftp.CleanAB | cache/backend/ftp.go:48 | `Clean("a/b/")` is "a/b" |
| Ftp.CleanABC | cache/backend/ftp.go:37 | "a/b/c" is already clean, so the auto-creation lemma applies to it |
| Ftp.DirABC | cache/backend/ftp.go:48 | `Dir("a/b/c")` is "a/b" |
| Ftp.MkdirPathAB | cache/backend/ftp.go:50 | MkdirAll("a/b") recurses on "a" and on nothing further |
| Ftp.PutCreatesABC | cache/backend/ftp.go:32-56 | Put("a/b/c") into a tree without "a/b" succeeds, creates "a/b", and Get("a/b/c") returns the bytes |
| Ftp.AutoCreateScenario | cache/backend/ftp.go:24-45 | the class methods on a fresh tree: Put("a/b/c") then Get("a/b/c") returns the data and leaves "a/b" a directory |
| Ftp.RemoteTree.Stat | cache/backend/ftp.go:25 | Stat succeeds exactly when the path is a file or a directory; it is logged and nothing else changes |
| Ftp.RemoteTree.MkdirAll | cache/backend/ftp.go:50 | outcome and new tree as in MkdirAllEffect |
| Ftp.RemoteTree.Create | cache/backend/ftp.go:37 | succeeds exactly when the parent is a directory and the path is not; it then truncates the file to empty and opens a fresh handle on it |
| Ftp.RemoteTree.Open | cache/backend/ftp.go:28 | succeeds exactly for regular files; it opens a fresh handle that reads the file's content, and the tree is unchanged |
| Ftp.RemoteTree.Write | cache/backend/ftp.go:43 | appends the bytes to the file open on the handle |
| Ftp.RemoteTree.Close | cache/backend/ftp.go:41 | releases the handle |
| Ftp.FtpBackend.constructor | cache/backend/ftp.go:19-21 | the backend wraps the given client |
| Ftp.FtpBackend.Get | cache/backend/ftp.go:24-29 | stats first; when the stat fails it returns an error, never calls Open, and opens no handle; otherwise it returns Open's result; it returns the content exactly as GetEffect says; the tree is unchanged |
| Ftp.FtpBackend.Put | cache/backend/ftp.go:32-45 | the error and the new tree are PutEffect's; the set of open handles is unchanged; the calls are PutCalls: ensureDir's, then Create only when ensureDir succeeded, then write and close only when Create succeeded |
| Ftp.FtpBackend.CreateAndCopy | cache/backend/ftp.go:37-44 | Create then copy then the deferred Close: the error and the new tree are CopyEffect's, the calls are CopyCalls', and the open handles are as before |
| Ftp.FtpBackend.EnsureDir | cache/backend/ftp.go:47-56 | stats Dir(p), and calls MkdirAll(Dir(p)) only when that stat fails; the error is DirFailed(Dir(p)); files and handles are untouched |
| Backend.InitializeS3Backend | cache/backend/backend.go:67-87 | always succeeds; TLS is disabled exactly when the endpoint lacks the "https://" prefix; static credentials exactly when key and secret are both non-empty; bucket, ACL, encryption, region, endpoint and path style are passed through |
| Backend.S3TlsFollowsScheme | cache/backend/backend.go:71 | every "https://" endpoint keeps TLS on; every "http://" endpoint and the empty (default) endpoint turn it off |
| Backend.InitializeFileSystemBackend | cache/backend/backend.go:90-105 | rejected lexically exactly when Clean(root) is "/"; otherwise rejected exactly when Stat of the root fails; success carries the root as given; every failure has no backend |
| Backend.LexicalCheckPrecedesStat | cache/backend/backend.go:91-98 | a lexically rejected root is rejected whatever Stat would say |
| Backend.DotsUnderRootRejected | cache/backend/backend.go:91-93 | every rooted path made only of slashes, "." and ".." is rejected lexically |
| Backend.RejectedRootExamples | cache/backend/backend.go:91-93 | "/", "//", "/./" and "/.." are rejected lexically |
| Backend.EmptyRootExample | cache/backend/backend.go:91-98 | "" cleans to "." and is accepted or refused by Stat alone |
| Backend.AuthMethods | cache/backend/backend.go:109-121 | password auth is present exactly when the password is non-empty; key auth exactly when the key is non-empty; nothing else is present; password comes first; no credentials give an empty list; the list holds exactly one entry per credential that is set |
| Backend.AddressParts | cache/backend/backend.go:131 | the dial address is the hostname, a colon, and a decimal string that reads back as the port |
| Backend.Address | cache/backend/backend.go:131 | `fmt.Sprintf("%s:%d", hostname, port)`; no ensures of its own; AddressParts states its shape and that the port reads back |
| Backend.SshNetwork.ParsePrivateKey | cache/backend/backend.go:116 | returns the fixed parse outcome and logs the call |
| Backend.SshNetwork.Dial | cache/backend/backend.go:132 | returns the fixed dial outcome; a success opens one SSH client |
| Backend.SshNetwork.NewSftpClient | cache/backend/backend.go:137 | needs an open SSH client; a success returns the server's client and opens one sftp client |
| Backend.SshNetwork.CloseSsh | cache/backend/backend.go:139 | closes one SSH client |
| Backend.InitializeFtpBackend | cache/backend/backend.go:108-148 | a key that fails to parse returns an error before any dial; a failed dial returns ConnectFailed(address) with nothing open; a failed sftp handshake closes the SSH client before returning; the dial uses "tcp", Address(c) and AuthMethods(c); the backend is nil exactly when there is an error; on success exactly one SSH and one sftp client have been added, and the backend's client is ready for Get and Put exactly when the server was |
| Backend.NoAuthScenario | cache/backend/backend.go:109-132 | a config with neither password nor key is not refused: it dials with an empty auth list and succeeds when the network does |
| Backend.SftpFailureScenario | cache/backend/backend.go:137-141 | when sftp fails after a successful dial, the result is SftpFailed and no SSH client is left open |

## Left out

- The `debug` flag and all logging (`log.Println`, `log.Printf`, the AWS log level) are left out. They change nothing the model tracks.
- The AWS SDK objects (`aws.Config`, `credentials.NewStaticCredentials`) are reduced to the values they are given. `newS3` and `newFileSystem` are not part of this model, and neither is the S3 or filesystem adapter behind them.
- SSH transport and cryptography are abstract. Key parsing, `ssh.Dial` and `sftp.NewClient` are each one success-or-failure outcome. The `ssh.FixedHostKey(nil)` host-key callback at cache/backend/backend.go:123 and 128 (a `hostKey` declared and never assigned) is not modelled. In golang.org/x/crypto/ssh, which is not part of this model, a fixed host key of nil makes the callback reject every server key. If so, a real `ssh.Dial` at cache/backend/backend.go:132 never succeeds, and the model's successful-dial outcome (the `err.None?` case of InitializeFtpBackend and NoAuthScenario) describes a host check the code as written does not pass. The timeout is only passed through to the dial.
- Backend.SshNetwork.ParsePrivateKey: the parse outcome is one boolean per network, not a function of the key's bytes.
- Backend.SshNetwork: tracks how many SSH and sftp clients are open, not which ones.
- Transport failures on an established session, such as a dropped connection or a permission error, are not modelled. Remote operations fail only for reasons the tree shows: a missing path, a directory in the way, a file in the way. A remote write failure during the copy is folded into the source's failure flag.
- `io.Copy` streaming is one step. The copied data is written, and the copy errs exactly when the source errs. On error, the file keeps the bytes read before the error.
- Ftp.RemoteTree.MkdirAll: follows the sftp library's `MkdirAll`, which is not part of this model. If `d` stats, it succeeds exactly when `d` is a directory. Otherwise it strips the trailing slashes and the last element and recurses on what is left. It then calls Mkdir, and when Mkdir finds `d` it succeeds exactly when `d` is a directory. The individual Stat, Mkdir and Lstat requests inside the library are one logged call. Mkdir does not check that the parent is a directory, and the tree does not require every file's parent to be one.
- The remote server's own path normalisation is not modelled. The tree is keyed by the exact strings the backend sends.
- Ftp.PutKeepsOtherFiles: distinct strings that name the same remote file ("a/b", "a//b", "a/./b") are distinct keys in the model. On a server, a Put under one of them changes what Get returns under the others.
- Ftp.PutCreatesParents: it is stated for clean keys only. For a key that is not clean, the model and a server can disagree. With "a/", a server's Create opens a directory and fails, while the tree accepts it. With "a/../b", a server needs "a" to exist, while the tree checks only `Dir` = ".".
- Ftp.FtpBackend.Get: when Open fails after a successful Stat, the Go code returns a nil `*sftp.File` inside a non-nil `io.ReadCloser` interface, together with the error. The model returns only the failure.
- Ftp.RemoteTree.Open: opening a directory is treated as a failure. The tree holds no content for directories, so there is nothing for a reader to return. On a typical server, a read-only open of a directory succeeds and only the reads fail. There, `Get` of a directory returns a reader and a nil error, where the model returns OpenFailed.
- Error message text and the context added by `errors.Wrap` are left out. Only the kind of error and the key or address it names are kept.
- Concurrency of the sftp session is left out. The code takes no locks.
- GoPath.Dir: `filepath.Dir` uses the separator of the machine the plugin runs on; the model fixes it to '/', so the client is assumed to run on a Unix-like system.
- Go strings are byte strings; the model uses Dafny's `string` of characters. Every literal the code compares against ("/", "https://", ":", the digits) is ASCII, so the two agree on every decision modelled.
