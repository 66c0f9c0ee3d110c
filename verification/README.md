# A verified model of the file system, its block cache, its disk link and its servers

The repository implements a small Unix-like file system over a remote block device: a disk
server that keeps a flat array of sectors, a file-system server with a write-back block cache,
inodes, directories and per-connection sessions, and the shared networking library with its
socket buffers, dispatch loop and thread pool. This project models those parts in Dafny and
proves what they guarantee, and, where the code falls short of what it is for, exactly when.

## How the model is laid out

The file system, bottom up. C structures kept in fixed arrays are datatypes in Dafny arrays,
and pointers into those arrays are indices.

- `Bytes`, `Disk`: bytes, little-endian words, 512-byte blocks; sectors behind cylinder and
  sector numbers.
- `Lru`, `Cache`: the recency list and the write-back cache. The class `BlockCache` carries the
  flat block store it stands for as a ghost field; every operation is proved against it, over a
  link that delivers blocks faithfully. `Link` has the two places where the cache pushes blocks
  over the link as it is.
- `BlockTree`, `Bitmap`, `Growth`: the tree of blocks that hangs off an inode, the ownership
  map that keeps all trees apart, the bitmap, and what allocation does to them.
- `Layout`: where all of this is on the device, byte by byte: inode records, superblock, directory
  records, bitmap bits and the pointers of a file.
- `Inodes`, `InodeCache`, `World`, `Files`, `Writes`: inode records, the inode cache as a
  refinement of a table of all inodes, and the meaning of every elementary step on values.
- `BlockZero`, `TwoWrites`: what a write, and two writes one behind the other, do to block 0, the
  superblock.
- `FileSystem`: the class with the operations of `block.c` and `inode.c`. Its `Now()` is the
  state as a value (`World`); each method's postcondition relates two such values. `bmap` is
  one method per level of indirection.
- `Commands`, `Editing`, `Directory`, `DirOps`, `Walking`, `Session`: reading and writing one
  file, directories as maps, path resolution and `cd`.
- `Invariant`, `Numbering`, `Spill`, `Formatting`, `Namespace`, `RootDir`, `HomeDir`, `MakeDir`,
  `Removal`, `Shell`: what holds between commands (`FsOk`), formatting, creating, removing, and
  the commands on a named file.
- `Between`, `Events`, `Effects`, `Appending`, `Owners`, `Turns`, `Runs`: consequences of `FsOk`; one
  command of one session as an event; what events do to the superblock and to the keys of
  directories, that they only ever append to directories and leave owners alone; turns,
  which are commands or a session coming or going; and logs of turns: arbitrary runs by any number
  of sessions. What a command spoils, leaks, wipes or clashes with is always a condition on the
  state before it.

The link and the servers.

- `Framing`, `TcpBuffer`: the message stream and the compacting buffer it passes through.
- `Wire`: the text of block requests, its parser, and the server's answer to it.
- `JobQueue`, `ThreadPool`, `Dispatch`: the linked job queue, the pool as a system of
  interleaved steps, and the dispatcher's per-connection locks on top of it.

## Where the code does less than it should

- A block whose first byte is white space is stored wrongly by the disk server, because its
  parser skips that byte together with the separator (`Wire.Push`). Any block of a file and any
  pointer block can start so, and two blocks of the inode area do as soon as inode 12 or 32
  exists (`Wire.InodeBlocksAtRisk`). A flush and an eviction keep what the cache stands for
  exactly if no dirty block they push does (`Link.Flush`, `Link.Evict`).
- A write miss in the block cache throws the recency list away (`Lru.DetachUnlisted`,
  `Cache.BlockCache.CacheWrite`). Coherence does not depend on the list and survives.
- A pointer block that cannot be allocated gets number 0, and block 0, the superblock, is zeroed
  in its place. A write does so exactly when the free blocks cover all its range is missing up to
  some logical block, but are two or more short for that one (`BlockZero.WriteOverruns`); 5121
  bytes into an empty file with ten free blocks is an example (`BlockZero.EleventhBlock`). The two
  writes of `cmd_i` do so if the first does, or both as one would, or if the first fails and the
  second starts below another pointer block that is missing (`Editing.TwoOverruns`,
  `TwoWrites.SecondStrands`). For every command this can be told before it (`Effects.EventSuper`),
  and after a run the device can be mounted exactly when no write in it did
  (`Runs.MountableAfter`).
- `cmd_d` adds position and length in 32 bits and deletes the right bytes exactly when that sum
  does not wrap round (`Editing.DeleteWraps`). If it does, the tail is rewritten further down than
  it was; without room for it the file is left with a hole, and only then
  (`Editing.DeleteAt`, `Shell.Delete`; `Editing.CutLeavesHole` is an example).
- `cmd_w` empties a file before it writes, so a device without room leaves it empty, and so do data
  larger than any file can be. A file it creates under a name of more than 25 bytes, or in a
  directory without room, is left behind without being found (`Shell.Write`).
- `ialloc` checks a number against the size of the device and not of the inode area. On a
  device of more than 128 blocks, once 128 inodes exist, a creation writes an inode record over
  a data block before it fails (`Numbering.IAlloc`, `Namespace.Mk`). That leaves the files alone
  exactly if the block is free or holds those bytes (`Spill.SpiltExactly`); number 128 goes to the
  first data block, and if that is the root's, the root loses its first record
  (`Spill.RootSpilt`).
- `cmd_mk` and `cmd_mkdir` never give back the reference they take when the name already exists
  and its inode can be acquired (`Namespace.Mk`, `MakeDir.Mkdir`); nothing else but `cd /` loses
  one (`Events.LeaksExactly`).
- A creation that finds no empty slot for its inode fails, and its number stays taken
  (`Namespace.Mk`).
- `cd /` loses the working directory exactly when the root is not cached, no slot is empty and
  someone else still holds the directory being left (`Session.Cd`).
- Names are stored cut to 25 bytes but looked up with 26, so a longer name is never found again
  (`Directory.AddedIsFound`) and can be added twice (`Directory.AddKeepsUnique`). The first
  command that adds a name whose first 25 bytes are taken is exactly the one after which keys are
  no longer unique (`Effects.EventKeys`, `Runs.KeysOver`).
- A removed name leaves an empty record for good. `dir_add` looks for a record named `/` to reuse and
  no command makes one, so directories only grow (`Appending.RmLeavesGap`, `Runs.AppendsOver`).
- An insertion that does not fit leaves the data without the tail, the two cut off, or the tail
  further down, and reports success (`Editing.InsertLeaves`).
- `server_run` reads which connection a slot holds before it takes the slot's lock. A task finds
  the connection it was queued for exactly unless that connection was closed in between
  (`Dispatch.LostWhenLate`); with at least one worker and one slot that can happen
  (`Dispatch.LosesConnection`, `Dispatch.ConnectionLost`).
- A message header of 2^31 - 4 or more makes the signed length wrap: the message loop steps back,
  stays where it is for ever or moves on into the header, by exactly the distance of
  `TcpBuffer.TcpBuffer.TakeOdd`.
- `thpool_wait` promises that the caller continues when all work is done, but the end of the
  work is signalled to one waiter only: a second one can stay blocked for good
  (`ThreadPool.WaitersStranded`).

## Model

| member | source | states |
|---|---|---|
| Disk.AddressBijection | fs/src/cache.c:48-49 | block numbers and (cylinder, sector) pairs on the disk name each other one to one |
| Disk.SectorsOfPatch | disk/src/disk.c:89-93 | overwriting the 512 bytes at one sector's offset changes that block of the device and no other |
| Disk.Disk.CmdR | disk/src/disk.c:67-76 | succeeds exactly for an address on the disk, and then returns that block of the device |
| Disk.Disk.CmdW | disk/src/disk.c:78-95 | succeeds exactly for an address on the disk and at most 512 bytes; the sector then holds the data padded with zeros and every other sector is as before; `memcpy` must be asked for bytes that are there, unless the write is refused |
| Lru.DetachedChain | fs/src/cache.c:27-33 | detaching a listed entry leaves a doubly linked list of the others in the same order |
| Lru.AttachedChain | fs/src/cache.c:36-42 | attaching an unlisted entry appends it to the doubly linked list |
| Lru.DetachUnlisted | fs/src/cache.c:181-182 | detaching an entry that is on no list and attaching it again leaves a list of that entry alone, whatever was listed |
| Lru.RecentSorted | fs/src/cache.c:119-158 | the order kept by touching blocks one at a time is, without repetition, the order of their last use, and ends with the block used last |
| Cache.EvictCoherent | fs/src/cache.c:127-134 | once a victim's bytes have reached the disk if they were newer, the other entries and the disk still stand for the same block store |
| Cache.FillCoherent | fs/src/cache.c:153-157 | refilling a free entry with a block that is not cached gives a coherent cache of the store with that block set |
| Cache.DetachSteps | fs/src/cache.c:27-33 | the pointer assignments of detach, in their order and with their aliasing, are the list operation the list lemmas are about |
| Cache.HeadIsLeastRecent | fs/src/cache.c:27-42 | after any run of accesses without a write miss the list is intact and ordered by last use, so the head is the least recently used block of all that are cached |
| Cache.BlockCache.constructor | fs/src/cache.c:107-111 | an empty cache stands for the disk as it is |
| Cache.BlockCache.AllocEntry | fs/src/cache.c:119-134 | hands out an unused entry while fewer than 1024 are used, else the head of the list, whose bytes are on the disk by then; no other sector is written |
| Cache.BlockCache.CacheRead | fs/src/cache.c:136-158 | returns the block last written, wherever it is held, and changes no block; an intact list has the block moved to its end; a hit touches no sector, a miss at most that of the victim, and each is counted |
| Cache.BlockCache.CacheWrite | fs/src/cache.c:160-185 | replaces exactly that block of the store; a hit moves it to the end of an intact list, a miss leaves a list of that entry alone; the bytes are not written to the disk: a hit touches no sector, a miss at most that of the victim |
| Cache.BlockCache.CacheFlush | fs/src/cache.c:187-198 | afterwards the disk itself is the store, and the list is the same list |
| Bitmap.MapBitSet | fs/src/block.c:45-48 | setting the chosen bit of its byte changes that bit of the bitmap and no other, without overflowing the byte |
| Bitmap.BitsCountTrees | fs/src/block.c:30-58 | the number of set bits is the total number of blocks in the trees of all inodes |
| Layout.MapBitPlace | fs/src/block.c:41-48 | bit i of a bitmap is bit i % 8, counted from the least significant, of byte i / 8 |
| BlockTree.LeafBlockInverse | fs/src/inode.c:349-431 | the ranges of direct, single and double indirect blocks number the leaves of the tree one to one |
| Layout.LookupPlace | fs/src/inode.c:348-435 | ten blocks are found by the pointers of the inode, 128 each through the blocks of the eleventh and twelfth, the other 16384 through the two levels below the thirteenth; each pointer is four bytes, the first weighing least |
| Layout.FileByte | fs/src/inode.c:669-692 | byte o of a file is byte o % 512 of the block so found for o / 512 |
| BlockTree.HungOwned | fs/src/inode.c:351-431 | hanging an unowned block on an empty slot, zeroed first if it holds pointers, changes exactly that slot of that inode and keeps all trees apart |
| Growth.HungGrew | fs/src/inode.c:351-431 | filling one slot with a block just marked keeps the trees of all inodes disjoint, in the data region and marked, and changes no byte of any file |
| Growth.FailedGrew | fs/src/inode.c:364-368 | a state that differs in block 0 alone has the same trees, ownership, marking and file bytes, so block 0 is all that a failed allocation can cost |
| Growth.FullOwner | fs/src/block.c:34-57 | when no bit is left to hand out, the trees hold every block the bitmap covers |
| Inodes.DecodeEncode | fs/include/inode.h:18-70 | a record is read back as written, field by field, whatever reference count was stored in the word over it |
| Inodes.StoredInode | fs/src/inode.c:202-231 | storing a record changes that inode and neither the other three of its block nor any other |
| Layout.InodePlace | fs/src/inode.c:202-231 | record n is at byte 128 (n % 4) of block 3 + n / 4, with every field at its offset in the C structure and the least significant byte first; storing it changes no other byte of the device |
| Layout.InodeLoaded | fs/src/inode.c:59-77 | an inode is loaded from the bytes at that place |
| Layout.WordStored | fs/src/inode.c:374-380 | a pointer stored in a block takes the four bytes of its place, the first weighing least, and no others |
| InodeCache.LoadStep | fs/src/inode.c:59-77 | loading an uncached inode into an empty slot yields the inode it was and keeps the cache a view of the table |
| InodeCache.EvictStep | fs/src/inode.c:97-103 | emptying a slot whose record has been stored loses no update |
| World.SbInit | fs/src/fs.c:9-22 | the regions of the device follow each other without gap or overlap and the inode area has room for 128 inodes |
| World.Filled1Tried | fs/src/inode.c:351-383 | filling one pointer keeps everything sound; it ends with a fresh block in the slot or with no free block on the device, and zeroes block 0 exactly in the second case if the slot holds further pointers |
| World.MapSubLevel | fs/src/inode.c:404-431 | a level of indirection below a mapped or failed one extends the map only along the path of the slot looked up |
| FileSystem.FileSystem.ReadBlock | fs/src/block.c:113-122 | returns the block as last written, or leaves the buffer alone for a number out of range; no block changes |
| FileSystem.FileSystem.WriteBlock | fs/src/block.c:127-136 | replaces exactly that block, or nothing for a number out of range |
| FileSystem.FileSystem.AllocateBlock | fs/src/block.c:30-58 | takes the first block that the bitmap has free and marks it alone, or returns 0 exactly when none is free |
| FileSystem.FileSystem.BMap | fs/src/inode.c:348-435 | returns what the block map says; with allocation it fills only empty slots on the path, each with a block new to every tree, keeps every other mapping and all file bytes, fails only on a full device, counts the blocks it took, and zeroes block 0 exactly if a pointer block on the path could not be had |
| FileSystem.FileSystem.IUpdate | fs/src/inode.c:202-231 | stores the cached inode's record and nothing else |
| FileSystem.FileSystem.IGet | fs/src/inode.c:32-81 | yields one more reference to the current inode of that number, in its slot or the first empty one; fails, changing nothing, exactly when there is no such inode or no slot |
| FileSystem.FileSystem.IPut | fs/src/inode.c:84-105 | takes one reference back; the last one stores the inode and frees its slot |
| FileSystem.FileSystem.ReadI | fs/src/inode.c:651-699 | copies exactly the bytes of the file up to the end asked for, the end of the file or the first unmapped block, and changes nothing but the access time, which becomes the time of the call |
| FileSystem.FileSystem.WriteI | fs/src/inode.c:702-768 | writes a prefix of the data at the offset, the whole unless the device is full or the maximum size is reached, mapping only blocks of that range; fails only for a file too large; block 0 is zeroed exactly if the write stops below a missing pointer block, and else kept; a complete write sets the size, if that grows, and two of the times, a short one none of them; the block counter grows by the blocks taken, and by one for a failed attempt |
| Files.ReadContents | fs/src/inode.c:669-692 | a read within a file without holes is never cut short and returns that part of its contents |
| Files.WroteContents | fs/src/inode.c:721-759 | writing at or below the end lays the data over the contents across direct and indirect blocks and partial first and last blocks |
| Files.WroteSolid | fs/src/inode.c:721-764 | a file without holes has none after a write at or below its end, whether or not the write completed |
| Files.AdvancedOthers | fs/src/inode.c:702-768 | growing and writing one file leaves the inode, the tree and every byte of every other file unchanged |
| Writes.WriteFile | fs/src/inode.c:702-768 | after a write at or below the end the contents are the data laid over the old contents, or the part that found room, and the file still has no holes |
| Writes.WriteCompletes | fs/src/inode.c:721-744 | a write completes exactly when the device has a free block for every data and pointer block its range is missing, and then takes exactly those |
| Writes.WriteOthers | fs/src/inode.c:702-768 | no other inode and no byte of another file changes, even when allocation fails part-way |
| BlockZero.WriteOverruns | fs/src/inode.c:361-431 | a write zeroes the superblock exactly when, at some logical block of its range, the free blocks cover all that the range is missing before it but lack the block and a pointer block above it: a condition on the free blocks and the tree before the call |
| BlockZero.EleventhBlock | fs/src/inode.c:361-367 | an input: a file without blocks, ten free blocks, 5121 bytes |
| BlockZero.NoOverrun | fs/src/inode.c:351-431 | writing over blocks that are all there cannot zero the superblock |
| BlockZero.OverrunFull | fs/src/inode.c:361-431 | nor can a write that the device has the blocks for |
| TwoWrites.SecondAfterFull | fs/src/fs.c:480-483 | after a first write that completes, the second zeroes the superblock exactly if the two as one would |
| TwoWrites.SecondAfterStop | fs/src/fs.c:480-483 | after a first write that fails without zeroing it, the second does exactly if it starts below a pointer block that is missing and is not the one above the block at which the first failed |
| TwoWrites.SecondStrands | fs/src/fs.c:480-483 | an input: a file of two bytes on a full device and an insertion of 5120 bytes at position 1 |
| Commands.WriteSpecHolds | fs/src/inode.c:702-768 | everything one call of writei means for the commands: contents, completion, growth, and nothing but this inode changed |
| Commands.ReadAt | fs/src/inode.c:651-699 | returns the requested part of the contents of a file without holes, and sets the access time if that part is not empty |
| Editing.DeleteUndoesInsert | fs/src/fs.c:467-516 | deleting what was just inserted restores the contents |
| Editing.InsertResult | fs/src/fs.c:480-483 | of all outcomes of the two writes, exactly the one in which both complete amounts to the insertion |
| Editing.InsertFits | fs/src/fs.c:480-483 | the two writes both complete exactly when the longer file is within the maximum size and the device has the blocks it is missing |
| Editing.InsertLeaves | fs/src/fs.c:480-483 | for every outcome of the two writes, the contents they leave: the data without the tail where the whole is too large, the insertion cut off where blocks run out, the tail further down where the sum of position and length wraps round |
| Editing.InsertAt | fs/src/fs.c:472-484 | the contents become the insertion exactly when it fits, taking just the blocks that the longer file is missing, and what is left of both writes otherwise is said byte by byte; in any case the file has no holes, and nothing else of it changes but times; whether the superblock is lost is told by the tree and the free blocks before |
| Editing.TwoOverruns | fs/src/fs.c:480-483 | for every position and length, that one of the two writes zeroes the superblock is one condition on the state before both |
| Editing.CatFile | fs/src/fs.c:433-443 | returns the whole contents |
| Editing.DeleteWraps | fs/src/fs.c:497-498 | cutting at the position computed in 32 bits is the deletion exactly when the sum does not wrap round |
| Editing.DeleteAt | fs/src/fs.c:495-513 | fails exactly for a position beyond the end; otherwise the file has the size that the cut computed in 32 bits leaves; it has no hole, and holds the bytes before the position and behind the cut, if the sum does not wrap round or there is room for the tail; if neither, it has a hole, and below the old end holds as much of the tail as lies there, or is as before if the tail would end beyond the largest file |
| Editing.CutLeavesHole | fs/src/fs.c:497-513 | an input: one full block, a full device, and a cut at the end whose sum wraps round to 0 |
| Editing.Overwrite | fs/src/fs.c:456-463 | the contents become the data if there is room and empty otherwise, keeping the blocks and taking just those that are missing; failure is reported exactly for data too large for any file; the block counter then counts the blocks taken for the data alone |
| Directory.DecodeEncode | fs/src/dirop.c:20-25 | a directory record is read back as written, with its name cut to 25 bytes |
| Layout.EntryBytes | fs/include/dirop.h:17-24 | the i-th record of a directory is read from bytes 36 i to 36 i + 35: type, inode number and name at their offsets in the C structure |
| Layout.EntryWritten | fs/src/dirop.c:20-25 | the bytes of an added record: those fields, at most 25 bytes of the name, and zeros behind it |
| Directory.LookupIs | fs/src/dirop.c:54-70 | a lookup gives the first record of that key, in 26 bytes of the name, that has an inode number, is a directory's or is named `..` |
| Directory.AddedRecord | fs/src/dirop.c:12-35 | a record is added in place of the first with inode number 0 that is not a directory's and is named `/`, and else at the end |
| Directory.VictimFirst | fs/src/dirop.c:86-94 | the record cleared is the first of that key with an inode number |
| Directory.EntriesOverlay | fs/src/dirop.c:35 | writing one 36-byte record in the file, though records straddle blocks, changes or appends that record and no other |
| Directory.LookupAfterAdd | fs/src/dirop.c:3-73 | adding a fresh name of at most 25 bytes defines that name and type and changes no other lookup |
| Directory.AddedIsFound | fs/src/dirop.c:24-67 | a name that was not there is found after its addition exactly when it has at most 25 bytes, and then with its inode; a longer one is still not there |
| Directory.AddKeepsUnique | fs/src/dirop.c:3-37 | adding keeps live keys unique exactly when no live record has the name as it is stored |
| Directory.LookupAfterRemove | fs/src/dirop.c:75-98 | where keys are unique, removing a name with a non-zero inode number undefines it, changes no other lookup and keeps keys unique |
| Directory.RemoveUndoesAdd | fs/src/dirop.c:3-98 | removing a name just added restores every lookup |
| Directory.EmptyMeansNoNames | fs/src/dirop.c:100-119 | a directory counts as empty exactly when no name but `.` and `..` leads to an inode other than the root |
| DirOps.DirLookup | fs/src/dirop.c:39-73 | finds what the map says and acquires that inode; nothing but the access time changes |
| DirOps.DirAdd | fs/src/dirop.c:3-37 | on a directory, adds the record in place of the first one with inode number 0 that is not a directory's and is named `/`, else at the end if there is room for one more, else leaves the records alone and still without room, and reports success either way; where no record is of that kind it leaves the records as they were or one more; the number of blocks taken is told before |
| DirOps.DirRemove | fs/src/dirop.c:75-98 | clears the first removable record of that name and type, or fails exactly when there is none |
| DirOps.DirIsEmpty | fs/src/dirop.c:100-119 | true exactly when every record is ignored |
| Appending.EventAppends | fs/src/dirop.c:16-35 | no command ever makes a record of the kind that an addition would reuse |
| Appending.MkAppends | fs/src/fs.c:141-172 | so `mk` appends its record, exactly if the disk has room at the end of the directory, and overwrites none |
| Appending.MkdirAppends | fs/src/fs.c:174-223 | and so does `mkdir`, if there is room beside the block of the new directory |
| Appending.RmLeavesGap | fs/src/dirop.c:88-92 | `rm` leaves an empty record in the place of the name, which no later command fills |
| Walking.TokensJoin | fs/src/fs.c:278-286 | the segments of `p/q` are those of `p` followed by those of `q` |
| Walking.TokensPlain | fs/src/fs.c:278-286 | a string without a separator is one segment, or none if it is empty |
| Walking.SplitNames | fs/src/fs.c:249-267 | splitting off the last name loses none of the names and keeps what the path starts with |
| Walking.ResolveJoin | fs/src/fs.c:270-301 | resolving `p/q` is resolving `q` from where `p` leads |
| Walking.SlotLeft | fs/src/inode.c:43-58 | while fewer inodes are in use than the cache has slots, a slot is empty |
| Walking.EmptySlot | fs/src/inode.c:43-58 | a slot is empty exactly while fewer inodes are in use than there are slots |
| Session.ResolveDir | fs/src/fs.c:270-301 | ends with one reference to the inode the fold of lookups gives, or none; it succeeds exactly if the path resolves and every directory on the way is in use already or finds an empty slot |
| Session.Cd | fs/src/fs.c:304-360 | on every path the session's one reference moves to the target or stays; it is lost exactly in the case named above; it succeeds exactly when the path names a directory and every directory on the way is in use already or finds an empty slot; the slots of all other inodes that are held keep them; for a path that does not end in a separator the slot then holds the directory that its segments lead to, from the root if it starts with one and from the working directory if not |
| Session.TargetAbsolute | fs/src/fs.c:270-276 | a path that starts with a separator names the same directory from every working directory |
| Session.TargetResolves | fs/src/fs.c:249-342 | a path that does not end in a separator names where its segments lead, if that is a directory, and nothing otherwise |
| Session.TargetBehind | fs/src/fs.c:260-342 | one that does names the entry without a name of the directory before it |
| Session.TargetJoin | fs/src/fs.c:249-342 | `p/q` names what `q` names from where `p` leads |
| Session.FewTargets | fs/src/fs.c:270-360 | with fewer than 19 inodes in use it succeeds exactly when the path names a directory |
| Formatting.SbRoundTrip | fs/src/fs.c:36-40 | the superblock is read back as written, whatever else its block holds |
| Layout.SuperblockBytes | fs/src/fs.c:9-40 | block 0 begins with the magic number and nine more words at their offsets in the C structure, the first byte of each weighing least |
| Formatting.Clear | fs/src/fs.c:25-58 | leaves an empty file system in order: no inode numbered, no block owned, no reference, the superblock in block 0 |
| RootDir.MakeRoot | fs/src/fs.c:60-79 | leaves everything in order with one reference to a root that holds `.`, provided the device has a data block at all; the root has mode 0755, owner 1, group 0, one link, and all its times are those of the call |
| HomeDir.MakeHome | fs/src/fs.c:81-105 | inode 1 is made a directory that the root names `home`, whenever the device has a data block; it has `.` and `..` exactly if a block was free for them, and else no record; it has mode 0755, owner 1, group 0, two links and the times of the call; no other directory exists, and all references are as before |
| HomeDir.Format | fs/src/fs.c:25-113 | formatting leaves everything in order, one session in the root, the two directories with the records and the metadata as above, and a superblock that is read back as written |
| Numbering.IAlloc | fs/src/inode.c:108-200 | takes the first free number, marks it alone, writes a new record and acquires it: one link, owner and group 0, mode 0755 for a directory and 0644 for a file, no bytes, no blocks, all times those of the call; refuses a number the device has no block for, changing nothing; a number beyond the inode area is marked and its record written to the data block that follows from it, and then refused |
| Numbering.WithNumberOrdered | fs/src/inode.c:136-191 | a new number and record leave every tree, file and name as they were and everything in order |
| Spill.SpiltExactly | fs/src/inode.c:132-199 | a creation whose number has no place in the inode area leaves the trees and bytes of all files alone exactly if the data block it writes to is free or already holds those bytes |
| Spill.HarmlessOk | fs/src/inode.c:132-199 | in that case everything stays in order |
| Spill.RootSpilt | fs/src/inode.c:132-199 | an input: number 128 on a device whose first data block is the root's; the record that stood first in the root then names an inode that does not exist |
| Namespace.Mk | fs/src/fs.c:141-172 | succeeds exactly if the name is not taken, an inode slot is empty and the first free number can be given out; then a new inode has the name, if the directory had room, with the owner and mode asked for, group 0, one link and the times of the call, the directory keeps its owner, mode and links, and all references are as before; the reference to a taken name is lost exactly if its inode could be acquired; the number is used up exactly if it could be given out and the name's inode not be acquired; everything stays in order, unless the number has no place in the inode area: then, and only then, its record is spilt as above and the command fails |
| MakeDir.Mkdir | fs/src/fs.c:174-223 | the same for a directory, which has two links and whose own records are `.` and `..` if a block was free for them and none otherwise; its parent has the name if there was room beside that block |
| Removal.Rm | fs/src/fs.c:225-245 | succeeds exactly if the name's inode can be acquired and a record of it has a number other than 0: that record is cleared and the inode loses one link and nothing else; no block and no inode number is freed or taken, no reference kept or lost, and neither another file nor the metadata of the directory changes |
| Shell.Cat | fs/src/fs.c:428-444 | exactly a named file whose inode can be acquired is returned whole, and nothing but access times changes, and those to the time of the call |
| Shell.Insert | fs/src/fs.c:467-487 | fails exactly if the file's inode cannot be acquired; otherwise the file becomes the insertion exactly when the device has room, and then takes just the blocks it lacks, and what it becomes otherwise is said byte by byte; it keeps its metadata but for times, no other file changes and all references are as before |
| Shell.Delete | fs/src/fs.c:490-516 | fails exactly if the file's inode cannot be acquired or the position is beyond the end; otherwise the file becomes the deletion if the sum does not wrap round; for every position and length it has the size of the cut, and everything is in order exactly if the sum does not wrap or the tail has room |
| Shell.Write | fs/src/fs.c:447-464 | reports success exactly if the data is not larger than any file can be and the file's inode can be acquired, or a file can be created and the name has at most 25 bytes and the directory room for it; a file that it creates belongs to the user, in group 0, with mode 0644, one link and the times of the call; a file that is there or found again holds the data if there was room and nothing otherwise; whether a creation fails, is not found again or spills its number is told before, and no other file changes in any case but the last |
| Shell.NewFileRoom | fs/src/fs.c:451-461 | whether the data of a file that `cmd_w` has to create will find room, and whether writing it zeroes the superblock, is told by the directory and the free blocks before the command |
| Between.BitmapConserved | fs/src/block.c:30-58 | between commands the set bits of the data bitmap number exactly the blocks of all trees |
| Between.TreesApart | fs/src/inode.c:348-435 | between commands no block hangs in two places, and every block that hangs anywhere is in the data region and marked |
| Between.OneSlotEach | fs/src/inode.c:32-105 | between commands an inode is cached at most once, with the references outstanding, and is on the device as it was last if it is not cached |
| Between.MadeLookup | fs/src/fs.c:141-172 | a file made under a name of at most 25 bytes is found under it, other lookups do not change and keys stay unique |
| Between.MadeDirLookup | fs/src/fs.c:174-223 | the same for a directory |
| Between.MadeDirUp | fs/src/fs.c:195-197 | `..` in the new directory leads back to the one it was made in, and `.` to itself, exactly if a block was free for the two records |
| Between.RemovedLookup | fs/src/fs.c:225-245 | a removed name is found no more, other lookups do not change and keys stay unique |
| Events.EventKept | fs/src/fs.c:141-516 | any command other than `cd` keeps every slot in use and the type of every inode in use, and leaves everything in order exactly if it leaves no hole |
| Events.LeaksExactly | fs/src/fs.c:143-179 | however many inodes are in use, a command other than `cd` loses a reference exactly when it is a `mk` or `mkdir` of a name that is taken and whose inode can be acquired, and then that inode's |
| Events.Execute | fs/src/fs.c:141-516 | executing any command of a session is one such event, which sets no time to anything but its own, or spills an inode number: exactly if the next number has no place and the command is a `mk`, `mkdir` or `w` of a name whose inode cannot be acquired |
| Effects.EventSuper | fs/src/fs.c:141-516 | any command zeroes the superblock exactly when one of its writes will run out of blocks at a pointer block, a condition on the state before it, and otherwise leaves it alone |
| Effects.EventKeys | fs/src/fs.c:141-516 | where the live keys of all directories are unique, a command leaves them so exactly unless it will add a name that, cut to 25 bytes, is already the key of a live record, a condition on the state before it |
| Effects.ShortNames | fs/src/dirop.c:24-25 | a command with a name of at most 25 bytes never does |
| Owners.EventOwners | fs/src/fs.c:141-516 | no command takes an existing inode its number, or changes its type, owner, group or mode |
| Runs.SessionsAccounted | fs/src/fs.c:141-516 | after any run by any number of sessions that come, give commands and go in any order, every session's slot still holds its own directory, whatever the others did, and the references to an inode are exactly those of the sessions in it and those lost by failed commands |
| Turns.EnterAccounted | fs/src/user.c:154-155 | a session that enters the root takes one reference more, or none if no slot is empty and the root is in none, and the account stays exact |
| Turns.LeaveAccounted | fs/src/session.c:20 | a session that ends gives its reference back and takes nothing from the others |
| Turns.TurnAccounted | fs/src/fs.c:141-516 | so does any other turn of a session: each other session keeps its directory, and the references change by the session's move and the one that is lost |
| Runs.ChainOk | fs/src/fs.c:141-516 | after any run everything is in order, exactly unless its last command left a hole |
| Runs.KeysOver | fs/src/dirop.c:3-37 | over any run all live keys stay unique until the first command that adds a name whose first 25 bytes are taken, and that one ends it |
| Runs.AppendsOver | fs/src/dirop.c:16-35 | over any run no record of the kind that an addition would reuse arises in any directory, so none is ever reused |
| Runs.TimesOver | fs/src/inode.c:693-764 | after any run each time of each inode is what it was before, or the time of a command of the run |
| Runs.OwnersOver | fs/src/fs.c:141-516 | nor does any run: every inode keeps what it was made with |
| Runs.SuperOver | fs/src/inode.c:361-431 | over any run block 0 is zeroed exactly if some write in it runs out of blocks at a pointer block, and is otherwise as it was |
| Runs.MountableAfter | fs/src/fs.c:116-135 | after any run `fs_mount` accepts the superblock exactly if no write in it did that |
| Runs.Serve | fs/src/fs.c:141-516 | requests of any number of sessions, each with its user and time, from any state in order in which the references are accounted for, are such a run; it ends early exactly where a session has no directory, a cut has left a hole, or the next request spills an inode number |
| Runs.Run | fs/src/fs.c:25-516 | formatting, and then any requests of the formatting session and of others that connected before it: all of the above holds of the log, and it ends early as said |
| Framing.ParseFrames | lib/tcp_utils.c:107-120 | framing the parsed messages again and appending what was left gives the stream back |
| Framing.FramesParse | lib/tcp_buffer.c:56-69 | framed messages are parsed back as they were, in order, whatever incomplete piece follows |
| Framing.Segmentation | lib/tcp_utils.c:99-121 | however the stream is cut into chunks, the messages delivered and the bytes kept are the same |
| Framing.DeliveredPrefix | lib/tcp_utils.c:99-121 | whatever part of a sender's stream has arrived, in whatever chunks, the messages delivered are the first of those sent; all of them once all has arrived |
| Framing.RegularParse | lib/tcp_utils.c:107-120 | a stream is free of headers that no signed length can express exactly if parsing does not stop at one |
| Framing.BigEndian | lib/tcp_utils.c:113 | the length is read from the first four bytes, the first weighing most, and the same bytes are written for it |
| Framing.HeaderOrder | lib/tcp_buffer.c:67 | headers compared byte by byte from the front are ordered as the lengths they stand for; 1 is written as 00 00 00 01 |
| Framing.ParseFront | lib/tcp_utils.c:107-120 | what comes first out of any stream is as many bytes behind the first four as these say, if that many are there and a signed length can express it; otherwise nothing |
| Framing.ParseMessage | lib/tcp_utils.c:107-120 | the bytes 00 00 h l and 256 h + l bytes behind them are delivered as that message, and parsing goes on behind it |
| TcpBuffer.TcpBuffer.Adjust | lib/tcp_buffer.c:21-34 | compaction changes none of the pending bytes |
| TcpBuffer.TcpBuffer.RecycleRead | lib/tcp_buffer.c:46-54 | gives up exactly the first bytes of those pending; a negative length takes bytes back, and the buffer stays valid exactly if it does not go below the start |
| TcpBuffer.TcpBuffer.Append | lib/tcp_buffer.c:56-69 | puts one framed message behind the pending bytes, or nothing when it does not fit or the length is negative: two bytes 00, the length with the byte that weighs more first, and the message |
| TcpBuffer.TcpBuffer.ReplyWithYes | lib/tcp_buffer.c:120-135 | the same for a message with `Yes ` before it |
| TcpBuffer.TcpBuffer.ReplyWithNo | lib/tcp_buffer.c:137-152 | the same for a message with `No ` before it |
| TcpBuffer.TcpBuffer.ReadToBuffer | lib/tcp_buffer.c:71-104 | the bytes received, however many calls they take, follow the pending ones without loss or repetition; what has arrived is taken as far as there is room behind those, and a closed connection is told from a full buffer |
| TcpBuffer.TcpBuffer.Drain | lib/tcp_utils.c:107-120 | hands over exactly the complete messages and keeps the rest, for every stream; ends at a header of 2^31 - 4 or more exactly if the stream has one to come to |
| TcpBuffer.TcpBuffer.TakeOdd | lib/tcp_utils.c:113-117 | one round at such a header moves the read index by the signed sum: up to three bytes on, not at all for 0xFFFFFFFC, and else back, out of the buffer exactly if that is further than it has come |
| TcpBuffer.TcpBuffer.HandleRead | lib/tcp_utils.c:99-121 | one arrival is one step of the receiver the segmentation theorem is about, up to such a header if there is one; the message handed over first is as long as the first four bytes pending say, the first weighing most; nothing is handed over once the peer has closed |
| TcpBuffer.TcpBuffer.Next | lib/tcp_buffer.c:154-164 | positive exactly when the first message is complete and not empty, and then that message; -1 exactly for a length no buffer could hold |
| TcpBuffer.TcpBuffer.SendBuffer | lib/tcp_buffer.c:106-116 | what was sent and what is still pending are together what was pending; all of it is sent, unless the sends up to the first failure take less |
| Wire.ReadRoundTrip | disk/src/server.c:12-25 | a printed read request is parsed back, whatever follows it in memory |
| Wire.WriteRoundTrip | disk/src/server.c:28-46 | a printed write request is parsed back to the same address and length, and to the same data exactly when the first byte is not white space |
| Wire.OnRecv | disk/src/server.c:59-126 | a read or write request is answered `Yes ` and the sector it names, or `No ` exactly for an address or length off the disk; what `memcpy` is asked for must be there |
| Wire.Acknowledged | fs/src/cache.c:95-96 | the first three bytes of an answer are `Yes` exactly if the request was carried out |
| Wire.ReadBytes | fs/src/cache.c:46-50 | the bytes of `R x y`, with any decimal digits for x and y, are a read of that cylinder and sector |
| Wire.WriteBytes | fs/src/cache.c:80-85 | the bytes of `W x y n` and data are a write of n bytes there, which begin at the first that is not white space |
| Wire.DecimalNumber | fs/src/cache.c:48-49 | a number is printed as the decimal digits that stand for it, without a leading zero |
| Wire.TokenBytes | disk/src/server.c:112-114 | the name of a request is what stands before the first blank, end of line or NUL |
| Wire.Fetch | fs/src/cache.c:45-71 | the block asked for is the block received |
| Wire.Push | fs/src/cache.c:73-103 | always acknowledged; no other block changes, and this one becomes the data exactly when its first byte is not white space |
| Link.Flush | fs/src/cache.c:187-198 | over the link as it is, the disk holds after a flush what the cache stands for exactly if no dirty block begins with white space; only such blocks differ |
| Link.Evict | fs/src/cache.c:127-134 | over it, dropping a victim loses nothing exactly if it is not a dirty block that begins with white space |
| Wire.InodeBlocksAtRisk | fs/src/inode.c:221-224 | the block of an inode whose number is a multiple of four starts with white space exactly for numbers 12 and 32 |
| JobQueue.JobQueue.Push | lib/thpool.c:456-477 | appends the job to the linked queue |
| JobQueue.JobQueue.Pull | lib/thpool.c:483-509 | takes the oldest job, and posts again exactly when jobs remain: the same `Take` that the pool's step system is made of |
| ThreadPool.RunInv | lib/thpool.c:371-400 | every state that any interleaving of workers, submitters and waiters reaches satisfies the pool's invariant |
| ThreadPool.NoLostWakeup | lib/thpool.c:456-571 | while jobs are queued the semaphore is up, or a worker has taken it and not yet pulled, or a thread inside the queue is about to post it; the pool never settles with a job queued |
| ThreadPool.EachJobOnce | lib/thpool.c:371-509 | every submitted job is queued, in the hands of one worker or done, and only one of these; jobs are pulled in the order submitted |
| ThreadPool.WaitReturnsAfterWork | lib/thpool.c:216-222 | when thpool_wait returns, every job submitted before its last read of the queue length is done |
| ThreadPool.WaitersStranded | lib/thpool.c:216-222 | a thread can stay in thpool_wait for good with all work done exactly when two threads may wait at once |
| ThreadPool.CountNext | lib/thpool.c:375-397 | every step keeps the counter equal to the workers between its increment and its decrement |
| Dispatch.OneTaskPerConnection | lib/tcp_utils.c:88-235 | in every interleaving a slot's lock is held exactly while the dispatcher is about to queue a task for it or one task for it is queued or running, and no two workers serve one slot |
| Dispatch.LostWhenLate | lib/tcp_utils.c:222-235 | a running task's slot holds the connection it was queued for, until the task closes it, exactly unless the slot had lost it between the dispatcher's look and its lock |
| Dispatch.LosesConnection | lib/tcp_utils.c:126-138 | a run, for any numbers of workers and slots, in which a task is queued and runs for a connection that is gone |
| Dispatch.ConnectionLost | lib/tcp_utils.c:222-235 | a server can come to that exactly if it has a worker and a slot at all |

## Left out

- Freeing (`free_block`, and the body of `iremove`): the code does not do what it is meant to, so no claim about freed blocks is decided by it. `cmd_rm` calls `iremove` while it still holds a reference, so that call returns at once. `cmd_rmdir` and `cmd_ls` are not modelled.
- Runs.Serve: ends when an inode number has been spilt or a cut has left a hole, because the state is then no longer in order; it also ends at a command other than `cd /` of a session without a working directory, which the source hands on as a null pointer.
- Runs.SessionsAccounted: holds between mounts. Two sessions share an account if both connect before the device is formatted, one formats it and the other then gets in by `cd /` or a login (`fs/src/user.c:154-155`); every later connection mounts, which resets the inode cache under the sessions that are there (`fs/src/server.c:48-52`, `fs/src/fs.c:129`).
- Turns.EnterAccounted: is the last step of a login; the user's directory that a login may create before it is not modelled.
- FileSystem.FileSystem.BMap: each level of indirection is a method of its own, and the block of the double indirect level is read again instead of being kept in a second buffer.
- Cache.BlockCache.AllocEntry: pushes over a link that delivers blocks faithfully; `Link.Evict` says what the link as it is makes of it.
- Cache.BlockCache.CacheFlush: the same; `Link.Flush`.
- Cache.BlockCache.CacheRead: calls the disk's sector operations directly; the text in between and its one defect are `Wire.Fetch` and `Wire.Push`.
- Disk.Disk.CmdW: a negative length passes the source's check and reaches `memcpy`, where C defines nothing; a length beyond the memory behind the request does too.
- Wire.OnRecv: the same lengths, in a request whose address is on the disk.
- TcpBuffer.TcpBuffer.TakeOdd: before the index moves, the callback is called with the negative length, and the file-system server then writes a zero byte outside the message (`fs/src/server.c:63`); neither that byte nor the bytes read as a header after a step back out of the buffer are modelled.
- Devices of fewer than 35 blocks or of 2^31 and more, on which the region sizes or the signed block numbers do not make sense.
- Framing liveness: a buffer can be full while its read index is still low, and then stalls.
- The pool's pause and resume signals, its destruction and the creation of its threads; the pool is modelled with its workers running.
- What a task does with the freed buffers of a connection that is gone.
- Two commands running at once: the file-system server has one worker, so commands are modelled one after another, in any order of the sessions.
- Reference counts, hit counters and the number of workers are unbounded; the on-disk copy of a reference count is taken modulo 2^32.
- Sockets, `select`, the event loop, memory allocation failures, clocks and logging. What a `recv` or `send` moves and what the clock shows are parameters.
- Splitting of command lines, user names, login and permission checks, and `handle_i` and `handle_e` of the disk server.
- `fs/src/main.c` and the unit tests, which belong to an older interface.
