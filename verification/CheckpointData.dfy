/** Values recorded by the workspace checkpoint store (kernel/checkpoints.py).

    SHA-256 is taken to be injective, so a digest is represented by the bytes it
    names.  Owner and file-flag fields are constant for every state the capture
    accepts, so a regular state keeps digest, mode, inode and parent directory. */
module CheckpointData {
  type Path = string
  type Id = string
  type CallId = string
  type Digest = string

  const UNKNOWN_PATH: Path := "(unknown)"

  datatype FileState =
    | Absent(parent: nat)
    | Regular(digest: Digest, mode: nat, inode: nat, parent: nat)
    | Skipped(reason: string)

  /** What a capture of each bindable path would return at this instant. */
  type Workspace = map<Path, FileState>

  datatype Change = Change(path: Path, before: FileState, after: FileState)
  datatype Operation = Operation(call: CallId, changes: seq<Change>)
  datatype Warning = Warning(path: Path, reason: string)

  datatype Manifest = Manifest(
    finished: bool, retired: bool, snapshots: nat, bytes: nat,
    operations: seq<Operation>, warnings: seq<Warning>)

  /** One resolved tool target: outside the contract, or a relative path. */
  datatype Target = Unsafe(raw: string, why: string) | Tracked(path: Path, before: FileState)
  datatype Pending = Pending(checkpoint: Id, call: CallId, targets: seq<Target>)

  datatype Index = Index(order: seq<Id>, used: seq<Id>)

  /** Compare two captured states; identity is the inode. */
  predicate StatesEqual(left: FileState, right: FileState, checkIdentity: bool) {
    match (left, right)
    case (Absent(p), Absent(q)) => p == q
    case (Regular(d, m, i, p), Regular(e, n, j, q)) =>
      d == e && m == n && p == q && (checkIdentity ==> i == j)
    case _ => false
  }

  /** With identity it is equality of capturable states; without, equality up to the inode. */
  lemma StatesEqualExact(left: FileState, right: FileState)
    ensures StatesEqual(left, right, true) <==> left == right && !left.Skipped?
    ensures StatesEqual(left, right, false) <==>
            (left == right && left.Absent?)
            || (left.Regular? && right.Regular? && left == right.(inode := left.inode))
  {
  }

  /** Equal up to the inode: what an atomic replace can bring back. */
  predicate SameImage(left: FileState, right: FileState) {
    StatesEqual(left, right, false)
  }

  /** Adjacent recorded states of one path meet exactly. */
  predicate Continuous(chain: seq<Change>) {
    forall i | 0 < i < |chain| ::
      StatesEqual(chain[i - 1].after, chain[i].before, true)
  }

  function EmptyManifest(): Manifest { Manifest(false, false, 0, 0, [], []) }
  function AnchorManifest(): Manifest { Manifest(true, false, 0, 0, [], []) }
  function RetiredManifest(): Manifest { Manifest(true, true, 0, 0, [], []) }
}
