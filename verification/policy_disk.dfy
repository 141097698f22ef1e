/**
 * The directory that holds the policy file, with what is visible kept apart from
 * what would survive a power loss.
 */
module PolicyDisk {
  import opened Common
  import opened PolicyDocument

  /** The fixed policy path, and temporary names told apart by process id and random number. */
  datatype Name = Policy | Temp(nonce: nat)

  type Directory = map<Name, nat>

  /** `synced` says that the current content has reached stable storage. */
  datatype Inode = Inode(content: Content, synced: bool)

  /**
   * `views` lists the states the directory went through since it was last synced;
   * the newest is the visible one, and any of them may supply an entry after a power loss.
   */
  datatype Disk = Disk(inodes: seq<Inode>, views: seq<Directory>)

  predicate WellFormed(d: Disk) {
    && d.views != []
    && forall i, n :: 0 <= i < |d.views| && n in d.views[i] ==> d.views[i][n] < |d.inodes|
  }

  function Visible(d: Disk): Directory
    requires d.views != []
  {
    Last(d.views)
  }

  /** Content found at the policy path of one directory state. */
  function FileIn(d: Disk, view: Directory): Option<Content> {
    if Policy in view && view[Policy] < |d.inodes| then Some(d.inodes[view[Policy]].content) else None
  }

  function PolicyFile(d: Disk): Option<Content>
    requires d.views != []
  {
    FileIn(d, Visible(d))
  }

  function AddView(d: Disk, view: Directory): Disk {
    d.(views := d.views + [view])
  }

  /** `create_new`: an empty file, which is not yet a policy document. */
  function CreateNew(d: Disk, n: Name): Disk
    requires d.views != []
  {
    AddView(d.(inodes := d.inodes + [Inode(Unparsable, false)]), Visible(d)[n := |d.inodes|])
  }

  function WriteFile(d: Disk, inode: nat, c: Content): Disk
    requires inode < |d.inodes|
  {
    d.(inodes := d.inodes[inode := Inode(c, false)])
  }

  function SyncFile(d: Disk, inode: nat): Disk
    requires inode < |d.inodes|
  {
    d.(inodes := d.inodes[inode := d.inodes[inode].(synced := true)])
  }

  function SyncDirectory(d: Disk): Disk
    requires d.views != []
  {
    d.(views := [Visible(d)])
  }

  /** Atomic replacement of the policy path by a temporary file. */
  function Rename(d: Disk, from: Name): Disk
    requires d.views != [] && from in Visible(d)
  {
    AddView(d, (Visible(d) - {from})[Policy := Visible(d)[from]])
  }

  function Remove(d: Disk, n: Name): Disk
    requires d.views != []
  {
    AddView(d, Visible(d) - {n})
  }

  /**
   * What a power loss may leave behind. Every name independently keeps any entry it had since the
   * last directory sync, synced files keep their content, and unsynced files may hold anything.
   */
  ghost predicate PowerLoss(d: Disk, after: Disk) {
    && |after.views| == 1
    && |after.inodes| == |d.inodes|
    && (forall i :: 0 <= i < |d.inodes| ==>
          after.inodes[i].synced && (d.inodes[i].synced ==> after.inodes[i].content == d.inodes[i].content))
    && (forall n: Name :: exists i :: 0 <= i < |d.views| && Get(after.views[0], n) == Get(d.views[i], n))
  }
}
