# RustLoader installer, modelled in Dafny

RustLoader is a command-line front-end for yt-dlp on Windows. Before its
interactive loop asks for a URL, a save folder and a quality, it makes sure
yt-dlp can be started. If the probe `yt-dlp --version` cannot be launched,
`install_yt_dlp` runs. It puts `yt-dlp.exe` at `<APPDATA>\yt-dlp.exe`, using
`C:\yt-dlp` when APPDATA is unset. The target is left as it is when it already
exists. Otherwise a copy from the current directory is preferred, and the
fixed GitHub release URL is the last resort. The target's directory is then put
in front of the process's PATH.

The model has five modules:

- `Opt` (option.dfy): the Option type.
- `Paths` (paths.dfy): Windows `Path::join` / `Path::parent` on strings, and
  the installation target derived from APPDATA.
- `SearchPath` (search_path.dfy): the `dir;PATH` rewrite and the split of
  PATH into its entries.
- `Installer` (installer.dfy): the host state (files by path, environment,
  current directory, log of network requests). It holds `Install`, one call of
  `install_yt_dlp` as a function on that state, and the lemmas about it. It
  also holds class `Process`, whose method `InstallYtDlp` performs the same
  steps in place and is proved equal to `Install`.
- `Frontend` (frontend.dfy): the URL check, the quality to format-selector
  mapping and the output template of the main loop.

The network and the local filesystem calls are inputs:

- `Fetch` is what the single GET does: the connection fails, the body cannot
  be read, or the body arrives. `reqwest::blocking::get` does not fail on an
  HTTP error status, so a 404 or 5xx page arrives as a `Fetched` body; it is
  written to the target and the call returns Ok.
- `Disk` holds the outcome of `fs::copy`, of `File::create` and of `io::copy`.
  A failed write leaves a prefix of the body in the file.
- The probe `check_yt_dlp` is a boolean input.

A failed download can leave a file behind. `File::create` (src/main.rs:106)
runs before the body is read (src/main.rs:107), so a failed body read leaves an
empty file at the target and a failed write leaves a truncated one. The next
run only checks that the target exists (src/main.rs:97), so it treats that
file as installed (`FailureResidue`, `InterruptedDownloadLooksInstalled`).
The code installs this one flat executable and nothing else.

## Model

| member | source | states |
|---|---|---|
| `Paths.Parent` | src/main.rs:112 | the parent of a path is a prefix of it, strictly shorter for a non-empty path |
| `Paths.SplitAtLastSep` | src/main.rs:112 | a path containing a separator is its parent, the last separator and its file name |
| `Paths.NoSepSplit` | src/main.rs:112 | a path without separators has an empty parent and is its own file name |
| `Paths.Join` | src/main.rs:93-95 | computes `Path::join` of a directory and a relative name: a `\` is inserted unless the directory is empty or ends in a separator; `JoinThenSplit` and `TargetInItsParent` state its properties |
| `Paths.JoinThenSplit` | src/main.rs:95 | joining a directory with a separator-free name and splitting again gives the name back, and the directory without a trailing separator |
| `Paths.InstallDir` | src/main.rs:94 | the install directory is APPDATA when it can be read and `C:\yt-dlp` otherwise |
| `Paths.TargetPath` | src/main.rs:93-95 | the target's file name is always yt-dlp.exe, its parent is the install directory (minus a trailing separator), and with APPDATA unset it is `C:\yt-dlp\yt-dlp.exe` |
| `Paths.TargetInItsParent` | src/main.rs:95 | looking up yt-dlp.exe in the target's parent finds the target itself |
| `SearchPath.Prepend` | src/main.rs:112 | computes `format!("{};{}", dir, path)`; `SegmentsOfPrepend` and `OldPathIsSuffix` state what it does to the entries and to the old value |
| `SearchPath.Segments` | src/main.rs:112 | a PATH value has at least one entry and no entry contains `;` |
| `SearchPath.UnsplitSegments` | src/main.rs:112 | joining the entries back with `;` gives the PATH value unchanged |
| `SearchPath.SegmentsOfPrepend` | src/main.rs:112 | after `dir;PATH`, with no `;` in dir, dir is the first entry and the old entries follow in order |
| `SearchPath.SegmentsOfPrependTimes` | src/main.rs:112 | after n prepends of one directory PATH holds n copies of it followed by the old entries |
| `SearchPath.OldPathIsSuffix` | src/main.rs:112 | the old PATH value survives every prepend as a suffix |
| `Installer.Install` | src/main.rs:92-116 | one call as a function of the host and the inputs: a current-directory failure, then the three-way placement (target exists, copy, download step by step), then the PATH prepend. Its own contract says the current directory is unchanged, PATH stays set and success leaves a file at the target; the lemmas below state the rest |
| `Installer.LocalCopy` | src/main.rs:93 | computes the current directory joined with yt-dlp.exe; `JoinThenSplit` states what the join gives |
| `Installer.Register` | src/main.rs:112 | computes the host with PATH set to the target's parent, `;`, and the old PATH; `SuccessPrependsPath` and `SuccessPutsTargetFirst` state this for `Install` |
| `Installer.InstallFrame` | src/main.rs:92-116 | a call changes no file but the target, no variable but PATH and not the current directory, and makes at most one request, for the fixed URL |
| `Installer.AlreadyInstalled` | src/main.rs:97-112 | with the target present and the current directory readable: success, no request, no file change, PATH gains the directory in front |
| `Installer.InstalledStep` | src/main.rs:97-112 | with the target present and the current directory readable, the call is exactly the PATH prepend with an Ok result |
| `Installer.CopiesLocalFile` | src/main.rs:97-101 | with a local copy and no target: no request; success exactly when the copy succeeds, and then the target holds the local file's bytes; on failure nothing changes |
| `Installer.DownloadsOnce` | src/main.rs:102-107 | with neither file: exactly one request for the fixed URL; success exactly when the body arrives and create and write succeed, and then the target holds exactly the body and no other file changed |
| `Installer.FailureKeepsEnv` | src/main.rs:93-112 | every failure returns before PATH is rewritten, so the environment is unchanged |
| `Installer.FailureResidue` | src/main.rs:101-107 | copy, create and connect failures leave no target; a body-read failure leaves it empty; a write failure leaves a prefix of the body |
| `Installer.SuccessPrependsPath` | src/main.rs:97-112 | after every successful call the target exists and PATH is the target's parent, `;` and the old PATH, with no other variable changed |
| `Installer.SuccessPutsTargetFirst` | src/main.rs:112 | after success, with no `;` in the install directory, the first PATH entry is the target's parent and the old entries follow; without a trailing separator that entry is the install directory and yt-dlp.exe in it is an existing file |
| `Installer.InterruptedDownloadLooksInstalled` | src/main.rs:97-107 | a download cut short after create leaves a truncated target that the next call accepts as installed, without a request |
| `Installer.SecondInstallPlacesNothing` | src/main.rs:97-112 | after a successful call a second call succeeds with no file change and no request, and PATH gains the directory once more |
| `Installer.RepeatedInstalls` | src/main.rs:97-112 | from an installed state, n calls all succeed and leave the host as it was except that PATH has the directory put in front n times: no file change, no request |
| `Installer.Process.InstallYtDlp` | src/main.rs:92-116 | the in-place install steps produce exactly the state and result of `Install`, and PATH stays set |
| `Installer.Process.EnsureYtDlp` | src/main.rs:17-19 | when the probe starts, nothing changes; otherwise the state and result are those of one install |
| `Installer.InstallTwice` | src/main.rs:19 | two calls on one process give the results and final state of two successive `Install` steps, and the current directory is unchanged; after a successful first call the second succeeds, the files and the request log end as the first call left them, and PATH has the target's directory put in front twice |
| `Frontend.StartsWith` | src/main.rs:24 | the character-wise prefix test holds exactly when the prefix is a leading slice of the string |
| `Frontend.IsAcceptedUrl` | src/main.rs:24 | the URL check `url.starts_with("https://www.youtube.com/watch")`; `AcceptedUrlsAreWatchUrls` states which URLs it accepts |
| `Frontend.AcceptedUrlsAreWatchUrls` | src/main.rs:24 | every URL made of `https://www.youtube.com/watch` and any continuation is accepted, and every accepted URL has that form |
| `Frontend.FormatFor` | src/main.rs:45-50 | every label maps to one of the three selectors; medium and low labels get their height caps and every other label gets `best` |
| `Frontend.MenuChoicesDistinct` | src/main.rs:42-50 | the three menu choices map to three different selectors |
| `Frontend.OutputTemplate` | src/main.rs:58 | computes `format!("{}/%(title)s.%(ext)s", save_path)`; `TemplateRoundTrip` and `TemplateStaysInFolder` state its properties |
| `Frontend.TemplateRoundTrip` | src/main.rs:58 | the save folder can be read back from the output template |
| `Frontend.TemplateStaysInFolder` | src/main.rs:58 | the output template is the folder, `/`, and a name without separators, so files land inside the folder |

## Left out

- The prompts (`Text`, `Select`, `Confirm`), the outer loop and the save-folder `is_dir` loop (src/main.rs:15-43, 63-78): user interface. Only the checks inside them are modelled.
- Spawning yt-dlp for the download (src/main.rs:54-61): the model covers the format selector and the output template it receives. The argument list, the process and its exit status are not modelled.
- `check_yt_dlp` (src/main.rs:84-89): the probe is the boolean `probeOk` of `EnsureYtDlp`. After an install, the model does not connect PATH back to that probe.
- Console output (`println!`) is not modelled.
- Real filesystem, network and environment: replaced by the `Host` state, the `Fetch` input and the `Disk` input.
- Directories: the filesystem map holds files only, so a directory at the target or at the local-copy path is outside the model. In the source, a directory named yt-dlp.exe at the target passes `exists()` at src/main.rs:97: placement is skipped, the call prepends PATH and returns Ok with no request. A directory with that name in the current directory passes `exists()` at src/main.rs:98 and sends the call into a failing `fs::copy`, with no request. The model would take the download branch in both cases.
- A missing parent directory of the target makes create or copy fail; the model gets that only through the `Disk` input.
- A failing `fs::copy` is taken to leave the filesystem unchanged.
- A PATH that is unset or not Unicode makes line 112 panic. `Install` and `InstallYtDlp` require PATH to be set, and panics are not modelled.
- An APPDATA value that is not valid Unicode is treated like an unset one, as `unwrap_or_else` does.
- Windows path details: drive-only prefixes such as `C:`, root directories, repeated separators, `.` components (with APPDATA `C:\x\.` Rust gives the target the parent `C:\x`, while `Parent` gives `C:\x\.`) and verbatim `\\?\` prefixes. `Parent` takes everything before the last separator.
- `SuccessPutsTargetFirst`: an install directory containing `;` is excluded, because then the directory is not a single PATH entry. Its lookup clause also excludes a directory ending in a separator, because that PATH entry drops the separator. `SuccessPrependsPath` states the PATH rewrite for every host.
- `TargetInItsParent`: an install directory ending in a separator is excluded, because the parent then lacks that separator.
- Names and paths are compared as exact strings. On Windows, `env::var` and `env::set_var` at src/main.rs:94 and 112 ignore case, and the variable is usually stored as `Path`. `exists()` at src/main.rs:97-98 also ignores case and treats `/` and `\` alike. The `env` and `fs` maps do neither, so a host must use the key `PATH` exactly and one spelling per file.
- `Segments` splits at every `;`. The program lookup of `Command` (`env::split_paths`) also treats `"`-quoted text as one entry and skips empty entries; that lookup is not modelled.
- The downloaded bytes are not checked in any way, and neither does the source check them.
