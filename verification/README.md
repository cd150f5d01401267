# Verification of rmlint's duplicate engine

This project models the engine that finds duplicate files and directories in
rmlint, and the data structures it stands on, and proves what they are for.

* **The progressive sieve** (`SieveState.dfy` and the other `Sieve*.dfy`, with
  `MemoryBank.dfy`). Files of one size enter a group; each generation hashes one
  more increment and sifts the files into child groups by digest. Group status,
  parents and orphans, the memory governor of the paranoid digest and the
  progress counters are one transition system. A critical section of
  `lib/shredder.c` is one step, and what runs outside of the locks is a step of its
  own: the unlocked test of the status and the walk up the parents, which may find
  any count, for a read as well as in the middle of a push; the section under the mutex
  of the bank, which does not test again; the registration of a digest; the two stores
  that size an increment; and the assignment after `rm_shred_mem_return` unlocks, which
  may fall before or into the debit of another group's grant. These steps of all threads
  interleave in any order. `ShredGroup.dfy` holds the code of the sections as methods
  on the group and tag objects and ties each to its step.
* **Directory merging** (`CountTree.dfy`, `TreeMerge.dfy`): the tree of file
  counts, feeding duplicates, and clustering full directories up.
* **Digests** (`Cumulative.dfy`, `Paranoid.dfy`): the digest of directories, and the
  paranoid digest that compares buffers while they arrive.
* **The scheduler** (`Scheduler.dfy`): worker tokens of a device that live as long
  as there are references to it.
* **The path trie** (`PathTrie.dfy`): linked nodes that refine a map from element
  lists to values.
* **Streaming hashes** (`BlockStream.dfy`, `HighwayHash.dfy`, `StreamHashes.dfy`):
  any cut of the input gives the one-shot result, whatever happens inside a block.
  `HighwayRounds.dfy` adds the arithmetic of HighwayHash itself: inputs that differ
  in one packet stay apart until the state is summed up to the digest.
  `HighwayAnswers.dfy` evaluates it for known inputs.
* **Reading and preprocessing** (`ReadLoop.dfy`, `Preprocess.dfy`): loops with
  conservation and partition arguments. `SieveReading.dfy` joins the read loop, the
  paranoid digest and the sieve.

Some promises do not hold for all runs of the code as written. The project keeps the
code, gives an input, or a run from the initial state, that breaks the promise, and
proves when it is kept.

* The memory bank. `rm_shred_mem_return` zeroes a group's account after releasing
  the mutex. A child that is granted memory in between inherits bytes that were
  already credited to the bank (`SieveLeak.MemoryOutOfNothing`), and if the assignment
  falls between the reading of the amount and the debit, the account ends below zero
  (`SieveLeak.NegativeAmount`). `SieveMemory.BankConserved` gives the steps that do it.
* One charge per group. `rm_shred_check_paranoid_mem_alloc` tests the status before it
  takes the mutex, and not again. Two workers can have one group charged twice
  (`SieveDouble.ChargedTwice`). `active_groups` is then too high for good, and a group
  that needs more than the bank holds is refused for ever (`SieveStarving.NeverQuiet`).
  The run can still end if and only if what the size groups need, by their sizes and
  numbers of files, fits the bank (`SieveEnding.EndsIfAndOnlyIfAllFit`). If all sizes
  fit from the start it can end whatever is charged twice (`SieveEnding.SizesFitEnds`).
* The assertion on `next_offset` in `rm_shred_hash_callback`. Another thread may just be
  sizing an increment of the group and have stored the offset without its limit;
  `SieveTheorems.CallbackAssertion` says exactly when the assertion holds.
* Completeness of the paranoid digest. It compares lists of buffers, and a short read
  that succeeds cuts the same data differently, so that equal files can be kept apart
  (`SieveSplit.SplitByShortRead`). They are together exactly if they were cut alike
  (`SieveReading.EqualFilesTogether`), which reads without short counts ensure
  (`SieveReading.InFullTogether`).
* Full directories. `rm_tm_cluster_up` takes the root directory for its own parent. If a
  duplicate lies directly in the root, the files the root counts at its turn are counted
  twice. It can be reported too early (`TreeMerge.RootReportedTooEarly`) or be missed
  (`TreeMerge.RootMissed`). `TreeMerge.RmTreeMerger.ClusterAll` says exactly when it is
  reported, and `TreeMerge.RootComesLast` what that means if it has its turn last: it is
  full, or just half of its files are counted. All other directories are right.
* Names without their extension. `rm_file_cmp_without_extension` takes the length of a
  second name that has no extension from the first name, so that "a" matches "ab"
  (`Preprocess.NotReversed`; `Preprocess.SameGroup` says when exactly names are mistaken
  for equal, and `Preprocess.OrderedIffConsistent` when files have an order at all).
* Chains in time. The sort takes times less than a tolerance apart as equal, the split
  between neighbours does not, so that a chain of files can be split
  (`Preprocess.ToleranceTears`). `Preprocess.ChainsIffNoneTorn` says exactly when not.
* The order of inputs of a directory's digest. It does not matter exactly as long as
  the first input chooses the same length (`Cumulative.Permutation`).

Where comments and code differ, the code is followed: `rm_shred_get_read_size`
rounds up to one page (the comment names a minimum that is not used); the count
callback starts at the last character of the path (the comment says one earlier);
the unbuffered reader sends nothing when asked for 0 bytes (a comment and a
variable suggest reading to the end); and a parent directory created below an
error gets the count 2^32-1, not -1, because the tree's value is read as unsigned.

`dafny verify dfyconfig.toml` checks the project.

## Model

| member | source | states |
|---|---|---|
| SieveRun.StepInv | lib/shredder.c:886-1045 | every step of every thread, in any order, keeps the whole invariant of the sieve: group shapes and parents, places and queues of files, tallies, digest tracks, memory accounts and remaining-work counters |
| SieveFrame.StepLeaves | lib/shredder.c:886-1045 | a step changes no fixed part of a group, and of the files it is not about it only moves held ones, when they are released or discarded |
| SieveRun.RunInv | lib/shredder.c:1647-1724 | the invariant holds in every state of every run from the initial state, whatever the interleaving |
| SievePush.PushCore | lib/shredder.c:886-970 | pushing a file into a group keeps the invariant and either holds the file or sends it out together with every file that was held |
| SieveTheorems.PrefixesAgree | lib/shredder.c:979-1045 | files of one group agree on all bytes up to the group's hash_offset, by induction up the chain of parents; for the paranoid type, whose digest covers one increment only, the prefix comes from the ancestors |
| SieveTheorems.Soundness | lib/shredder.c:812-845 | in every reachable state a group handed over as duplicates holds only files of equal content and meets the criteria, counted over the files it holds |
| SieveTheorems.NeverSplit | lib/shredder.c:1005-1028 | for any digest function, two files from one size group that were hashed alike are never in groups that are unrelated: one group is above the other |
| SieveTheorems.AlikeTogether | lib/shredder.c:979-1045 | for any digest function, two files from one size group that came to rest and were hashed alike are in the same group |
| SieveTheorems.Completeness | lib/shredder.c:979-1045 | two files from one size group that came to rest are in the same group if and only if the buffers of their increments were the same on the way there; with every type but the paranoid one that is the data |
| SieveReading.HashedAlikeIffCutAlike | lib/checksum.c:1009-1027 | files of equal content are hashed alike if and only if the paranoid buffers of their increments were cut in the same places |
| SieveReading.EqualFilesTogether | lib/shredder.c:979-1045 | two files of equal content from one size group that came to rest are in the same group if and only if their increments were cut alike |
| SieveReading.InFullTogether | lib/hasher.c:237-344 | files of equal content whose reads never brought less than they could are never split, whatever the buffer size |
| SieveSplit.SplitByShortRead | lib/checksum.c:1009-1027 | a run in which two equal files of one page, read without failure, end in different groups because one read was short |
| SieveTheorems.ReportedIsComplete | lib/shredder.c:812-845 | when a group is reported, every file from the same size group that was hashed alike is in it, unless reading that file failed |
| SieveTheorems.ReportedIffQualifies | lib/shredder.c:798-845 | a group is reported as duplicates if and only if the files it holds meet the criteria |
| SieveTheorems.ReportedIffDuplicates | lib/shredder.c:798-845 | a group is reported as duplicates if and only if it holds at least two files, and as far as the options ask for it one that is tagged, one that is not, and one that is new |
| SieveTheorems.HashedIffNeeded | lib/shredder.c:847-866 | a group is hashed if and only if its files so far may be duplicates in that sense, are not read to their end, and there are two clusters to compare, or one inode with links whose checksum is wanted for directories |
| SieveTheorems.ReportedExactly | lib/shredder.c:812-1045 | of the files of the size group that were read without failure, a reported set of duplicates holds exactly those of equal content that were hashed alike |
| SieveTheorems.ReportedHasHead | lib/shredder.c:1525-1530 | a reported group holds a file, so the result factory finds the head of the queue it takes the first file from |
| SieveTheorems.ChecksumOfAll | lib/shredder.c:1621-1627 | with every type but the paranoid one the checksum that a child group is found by is that of all its files have in common so far, and of each as a whole if they are read to their end |
| SieveTheorems.FinalisedOnce | lib/shredder.c:871-883 | a group is finalised exactly once, when it has no parent and nothing pending, whichever of sift and make_orphan comes last; num_pending is the number of its files that are out |
| SieveTheorems.FreeAssertions | lib/shredder.c:757-796 | the assertions of rm_shred_group_free (no parent, nothing pending, no digest in progress) hold whenever a group is about to be freed |
| SieveTheorems.OffsetAssertions | lib/shredder.c:1058 | a hashed file's offset is the planned next_offset of its group and the hash_offset of every child group, so the offset assertion at line 930 holds |
| SieveTheorems.CallbackAssertion | lib/shredder.c:512-525 | the assertion at line 1058, which looks at next_offset without a lock, holds whatever it finds if and only if no thread is sizing an increment of the group just then or the limit of paranoid digests makes no difference |
| SieveTheorems.ActiveGroupsCounted | lib/shredder.c:540-625 | active_groups is the number of active groups plus the number of grants to groups that were active already |
| SieveTheorems.RefusalMeansActive | lib/shredder.c:582-647 | memory is only refused while active groups and repeated grants together are more than the threshold; unless the repeated grants alone are, an active group exists that will give memory back |
| SieveTheorems.GrantedExactly | lib/shredder.c:582-647 | a request is granted if and only if no group is active, or at most one is when files are pushed, or the bank and the account of the parent together can pay it |
| SieveTheorems.AsksForAll | lib/shredder.c:570-592 | undisturbed, a group asks for half of the files that may yet come into it, those pending in it or above it, and one more, times what is left of them, 16 MiB at most |
| SieveTwins.TwinsKnown | lib/shredder.c:1601-1618 | in every run a group lists for twin candidates exactly the paranoid digests in the making for it: from their registration until their file leaves for a child group or is given up, and none of symlinks |
| SieveProgress.CommittedMoves | lib/shredder.c:582-647 | a group that was granted memory always leads to a step that gets work done, at it or above it |
| SieveProgress.Progress | lib/shredder.c:1647-1724 | while no group was charged twice the sieve does not get stuck: unless everything is over a step makes progress, and if it asks for memory then it is granted |
| SieveProgress.QuietEnd | lib/cmdline.c:1843-1855 | at the end every file that entered was discarded exactly once, alone after a failure or with its result group; the files and bytes remaining are both 0, as the program checks; and the bank holds what it started with, plus what leaked |
| SieveTermination.StepDescends | lib/shredder.c:979-1045 | every step, aborts included, decreases a well-founded measure, except for raising a request for memory |
| SieveTermination.ReachesEnd | lib/shredder.c:1647-1724 | the sieve can be driven to its end without charging a group twice, from every state in which no group was, and no two requests for one group or for a charged group are under way |
| SieveStarving.StarvesOn | lib/shredder.c:582-647 | once a group was charged twice, any group, root or child, that has not got its memory and needs more than the bank started with is refused at every step, unless a file of it is aborted or memory leaks |
| SieveStarving.NeverQuiet | lib/shredder.c:1647-1724 | a run that goes on from there never comes to its end |
| SieveEnding.EndsIfAndOnlyIfAllFit | lib/shredder.c:582-647 | after a second charge, while those size groups that need more than the bank started with have not got any memory, the sieve can still come to its end if and only if for every size group half the number of its files plus one, times its capped file size, is at most what the bank started with |
| SieveEnding.EndsUnlessStarving | lib/shredder.c:582-647 | in any state between increments, after a second charge, the sieve can still come to its end, if need be with reads that fail, if and only if no group, root or child, needs more than the bank started with |
| SieveEnding.SizesFitEnds | lib/shredder.c:1647-1724 | if for all files of one size that need is at most the bank, the sieve can be driven to its end from every reachable state, whatever was charged twice or leaked and without a failing read |
| SieveDouble.ChargedTwice | lib/shredder.c:582-647 | a run in which two workers find one group without memory and both are granted it: two are counted active, one is, and two files of three pages, which need six, starve with a bank of four: the sieve cannot end any more |
| SieveRun.ReadConserves | lib/shredder.c:1684-1689 | reading keeps the remaining-bytes counter right if and only if a symlink, which is charged with its full size, is read from its start in an increment that takes all of it |
| SieveRun.SymlinkReadWhole | lib/shredder.c:1684-1689 | a symlink whose target fits the first increment is read whole in the first generation |
| SieveSteps.OffsetAdvances | lib/shredder.c:496-533 | an unfinished group plans an increment that is positive and ends inside the file |
| ReadSize.IncrementBounds | lib/shredder.c:496-533 | in every reachable state the planned increment is positive, stays inside the file, is the same for all files of the group, and fits the 32-bit result (256 MiB and four pages at most) |
| ReadSize.ReadLengths | lib/shredder.c:496-533 | in every reachable state a file with d increments behind it is read by 4 pages times eight to the d, up to the limit, to its end if no more than 4 pages would be left, and by at most 16 MiB for the paranoid type |
| ReadSize.FewGenerations | lib/shredder.c:473-477 | without that last limit, what a file has behind it grows exponentially with the number of its increments until these reach the limit |
| ReadSize.LimitMatters | lib/shredder.c:512-525 | what another thread may find as the next offset before the limit is the offset plus that length without the limit, and the limit makes a difference if and only if this length is more than 16 MiB |
| MemoryBank.ChargeBalanced | lib/shredder.c:596-625 | granting a request keeps the books; it takes at most what is required exactly when the inherited amount is not negative or the bank has no more; it creates memory out of nothing exactly when the parent was credited already and has something left, and miscounts the active groups exactly when the group was active |
| MemoryBank.ChargePays | lib/shredder.c:596-625 | a grant is paid from the parent's account first and then from the bank, in full, or if that is not there with all there is; no other account changes; zeroed meanwhile, the parent's account ends below zero or as if it had not been zeroed |
| MemoryBank.GrantedIffPaid | lib/shredder.c:594-600 | a request is granted if and only if it would be paid in full or few groups are active |
| MemoryBank.ChargeNonNegative | lib/shredder.c:563-605 | a grant makes an amount negative exactly when the parent's account, with something left, is zeroed after the reading and before the debit |
| MemoryBank.ReturnBalanced | lib/shredder.c:540-562 | crediting an account to the bank keeps the books |
| MemoryBank.ClearBalanced | lib/shredder.c:563 | zeroing a returned account keeps the books |
| SieveMemory.StepBooks | lib/shredder.c:540-625 | a step of the sieve creates memory out of nothing exactly if it grants memory to a group whose parent was credited to the bank and has something left in its account, because the assignment of rm_shred_mem_return is still to come or was overwritten; makes an amount negative exactly if the assignment falls before the debit of such a grant; and miscounts the active groups exactly if it charges a group twice |
| SieveMemory.BankConserved | lib/shredder.c:540-647 | in every run the bank is never negative; bank and active accounts add up to the initial amount if and only if no step fell into the window; all amounts are non-negative if and only if none tore; active_groups is right if and only if none charged a group twice |
| SieveMemory.ChargedOnce | lib/shredder.c:582-647 | a charged group stays committed and its account only shrinks, unless a step charges that very group again |
| SieveLeak.MemoryOutOfNothing | lib/shredder.c:540-647 | a run with pages of 4096 bytes, five files of 13 pages and a bank of 39 pages that ends with 51 pages in the books |
| SieveLeak.NegativeAmount | lib/shredder.c:563-605 | the same run with the assignment in the middle of the grant: an account ends 12 pages below zero |
| ShredGroup.RmShredGroup.constructor | lib/shredder.c:461-488 | a new group is dormant and empty and its offset factor is eight times the parent's, capped |
| ShredGroup.RmShredGroup.UpdateGroupStatus | lib/shredder.c:851-866 | the object's status update is that of the transition system |
| ShredGroup.RmShredGroup.PotentialCount | lib/shredder.c:570-576 | the walk up the parents adds up the pending files of the group and of all groups above |
| ShredGroup.RmShredGroup.CheckParanoidMemAlloc | lib/shredder.c:582-647 | grants exactly when the transition system does, with the count the walk finds, and then group, parent and bank are those after its commit; a committed group is granted, and a refusal changes nothing |
| ShredGroup.RmShredGroup.MemReturn | lib/shredder.c:540-565 | undisturbed, the return is the two steps of the transition system: what the group held is back in the bank, its account is empty, and the books balance as before |
| ShredGroup.RmShredGroup.PushFile | lib/shredder.c:886-970 | group, parent, bank and active_groups after the push, and the files handed to the scheduler, in queue order, are those of the push on the state |
| ShredGroup.RmShredGroup.GetReadSize | lib/shredder.c:496-533 | returns a positive size that ends at the next offset the transition system plans |
| ShredGroup.PushIsThreeSteps | lib/shredder.c:886-970 | a push that asks for memory, undisturbed, leaves group and bank as three steps of the transition system do: the first part of a sift, the test, and the decision on its request |
| ShredGroup.QueuedGoOut | lib/shredder.c:886-970 | exactly the files handed to the scheduler are out after a push; the pushed file is held otherwise, and no other file moves |
| CountTree.CountTree.CountCallback | lib/treemerge.c:136-187 | climbing one path adds one to every directory strictly above it, or marks them all with -1, which sticks |
| CountTree.CountStep | lib/treemerge.c:136-187 | one more climbed path keeps the tree describing the files and errors seen |
| CountTree.CountTree.CountFiles | lib/treemerge.c:271-284 | whatever the order of iteration, every directory's count ends as -1 iff an error path is strictly below it, or a path of the command line that was found, itself or as a directory; otherwise as the number of countable files strictly below it |
| TreeMerge.RmTreeMerger.InsertDir | lib/treemerge.c:565-574 | inserts a directory at the head of the queue of its key, once, and keeps the table consistent |
| TreeMerge.RmTreeMerger.Feed | lib/treemerge.c:576-619 | feeding a file keeps all counts, digests and sets of digests right and never changes the key of a directory that is already in the table |
| TreeMerge.NotYetInserted | lib/treemerge.c:576-619 | a directory that still gains a file cannot be in the result table |
| TreeMerge.MergeCover | lib/treemerge.c:475-518 | merging a directory moves exactly the files it counts to its parent and changes nothing else; no file is counted twice |
| TreeMerge.ParentOpen | lib/treemerge.c:987-1015 | while a directory is unmerged its parent is neither full nor merged, unless that is a root merged into itself, so a merge never touches a directory in the table |
| TreeMerge.RmTreeMerger.MergeUp | lib/treemerge.c:475-518 | one merge keeps counts, digests, sets of digests, links and table right, with the keys of inserted directories unchanged; a parent that is created below an error gets the count 2^32-1 |
| TreeMerge.RmTreeMerger.ClusterUp | lib/treemerge.c:987-1015 | merges a directory and every ancestor that becomes full, each into its parent at most once |
| TreeMerge.FullIsComplete | lib/treemerge.c:565-619 | a directory whose counts are equal has all counted files below it fed and counted, and no error mark |
| TreeMerge.FullIsInserted | lib/treemerge.c:987-1030 | after clustering every directory of which all counted files were fed is in the table |
| TreeMerge.RmTreeMerger.ClusterRoot | lib/treemerge.c:987-1015 | a root directory that files were fed into is its own parent and is merged into itself |
| TreeMerge.RmTreeMerger.ClusterAll | lib/treemerge.c:1017-1030 | after clustering a directory is in the result table if and only if it has a counted file below it, no error mark, and all these files were fed, and its key never changed while it was in the table; the counts are right. A root that files were fed into directly, and it alone, is an exception: it is in the table if and only if there is no error mark and it counted all files when its turn came, or at some later turn the files counted then plus those counted at its own turn are as many as all. Directories in the table share an entry if and only if they are alike in what is below them |
| TreeMerge.RootComesLast | lib/treemerge.c:987-1030 | if the root has its turn last, it is in the table if and only if it should be, or there is no error mark and it counts just half of its files: those fed with only directories between that are full or were fed into |
| TreeMerge.RootReportedTooEarly | lib/treemerge.c:987-1015 | two of the four files in the root directory are fed, and the root is inserted as a full directory |
| TreeMerge.RootMissed | lib/treemerge.c:313-316 | three files are fed, which are all, but a directory in the root, which has as many slashes as the root, has its turn after it: the root is not inserted |
| TreeMerge.FullContent | lib/treemerge.c:475-518 | once all is merged, a full directory counts exactly the files below it, its digest is the exclusive or of their digests (and of the names of files and directories below it if the layout counts), and its set of digests is that of the files on the two topmost levels |
| TreeMerge.KeysIffAlike | lib/treemerge.c:400-424 | two full directories are equal, and so in one entry of the result table, if and only if they have as many files, the same exclusive or of digests and names, and the same digests on the two topmost levels |
| TreeMerge.CopiesAlike | lib/treemerge.c:400-424 | directories that hold the same digests under the same relative names are equal, with either layout option |
| TreeMerge.OneFileApart | lib/treemerge.c:400-424 | two directories with one file each, of different digests, are not equal |
| TreeMerge.NamesMatter | lib/treemerge.c:452-465 | two directories with one file each, of one digest, are equal; with the layout option if and only if the sums of the names add the same to a digest |
| Cumulative.RmDigestCumulative.Update | lib/checksum.c:322-355 | the word-wise loop with its byte tail folds the input byte by byte into position i modulo the length, the first update choosing the length |
| Cumulative.UpdateWord | lib/checksum.c:339-345 | one word of the fast loop is eight steps of the byte-wise fold |
| Cumulative.XorByBytes | lib/checksum.c:340 | exclusive or of 64-bit words is exclusive or of their bytes |
| Cumulative.FoldColumn | lib/checksum.c:322-355 | every position of the state collects exactly the input bytes whose index is that position modulo the length |
| Cumulative.Commutes | lib/treemerge.c:443-450 | two updates can be exchanged |
| Cumulative.Permutation | lib/treemerge.c:443-465 | two orders of the same inputs give the same digest if and only if their first inputs choose the same length |
| Cumulative.LengthsMatter | lib/checksum.c:324-328 | with inputs that choose different lengths the order matters |
| Cumulative.LengthChosen | lib/checksum.c:324-328 | the first input chooses the largest multiple of 8 that it fills, from 8 up to 64 |
| Cumulative.OwnDigest | lib/checksum.c:322-355 | a single input of a multiple of 8 bytes, up to 64, is its own digest |
| Paranoid.RmParanoid.BufferedUpdate | lib/checksum.c:719-792 | a live twin candidate always has this digest's whole buffer list as a matched prefix with the cursor just past it, and there is a next buffer to compare while bytes are missing; candidates are tried in order of arrival, and those passed over do not match |
| Paranoid.RmParanoid.ComparePrefix | lib/checksum.c:763-770 | a candidate is accepted iff this digest's buffers are a prefix of its buffers |
| Paranoid.DigestEqual | lib/checksum.c:982-1027 | pre-matching agrees with the plain comparison: for completed digests with kept buffers the result is true iff all buffers are equal; without buffers the shadow hash decides |
| Paranoid.BuffersDecideData | lib/checksum.c:1009-1027 | equally chunked digests have equal buffers iff they hold the same data |
| Paranoid.CutsDecide | lib/checksum.c:1009-1027 | two buffer lists that hold the same data are equal if and only if they are cut in the same places |
| Scheduler.StepInv | lib/md-scheduler.c:176-275 | every step keeps the reference count equal to queued tasks, running claims and loose references, threads equal to the live worker tokens, and every pushed task queued or run once |
| Scheduler.RunInv | lib/md-scheduler.c:195-256 | that invariant holds in every run under the client's contract, with any interleaving |
| Scheduler.RunAtMostOnce | lib/md-scheduler.c:176-256 | no task is run twice and none that was not pushed |
| Scheduler.PassOrder | lib/md-scheduler.c:209-229 | after a merge, and until the next one, the tasks handed out are the new ones in their sorted order, and then the older ones |
| Scheduler.PopsWithinQuota | lib/md-scheduler.c:228-235 | a worker gets a task if and only if there is one and fewer than the quota succeeded since it began its pass |
| Scheduler.FreedAtEnd | lib/md-scheduler.c:240-255 | a device is freed at most once, and then its queues are empty, nobody holds a reference, every pushed task was run exactly once and nothing can happen to it any more |
| Scheduler.WorkersGoOn | lib/md-scheduler.c:195-256 | until a started device is freed some worker token can take a step; threads is the number of tokens queued or at work |
| Scheduler.ReachesFreed | lib/md-scheduler.c:195-275 | a started device whose clients give up their references can be brought to be freed |
| Scheduler.RmMDSDevice.PushTaskImpl | lib/md-scheduler.c:176-183 | the push on the device object is the push of the transition system |
| Scheduler.RmMDSDevice.MergeTasks | lib/md-scheduler.c:207-222 | the merge of the task lists on the device object is the start of a pass |
| PathTrie.JoinSplit | lib/pathtricia.c:114-123 | splitting at slashes and joining again gives back the path |
| PathTrie.SplitJoin | lib/pathtricia.c:114-123 | different element lists are different paths |
| PathTrie.RoundTrip | lib/pathtricia.c:100-123 | an absolute path within PATH_MAX is the join of the elements the iterator yields |
| PathTrie.RmPathIter.Next | lib/pathtricia.c:114-123 | yields the elements one by one, empty ones included, and then nothing |
| PathTrie.RmTrie.NodeInsert | lib/pathtricia.c:60-74 | finds or creates the child; no stored value and no other node changes |
| PathTrie.RmTrie.Insert | lib/pathtricia.c:125-150 | stores the value at the element list, creates exactly the missing prefixes, changes no other value, and marks this node, and no other, as one with a value |
| PathTrie.RmTrie.SearchNode | lib/pathtricia.c:152-176 | returns the node of the element list, or null iff there is none |
| PathTrie.RmTrie.SetValue | lib/pathtricia.c:183-191 | changes the value iff the element list has a node, and nothing else, marks included |
| PathTrie.Replay | lib/pathtricia.c:125-191 | after any sequence of insertions and value changes, searching gives the last value stored for that element list, NULL if none; the nodes with values are exactly those inserted, and size is the number of insertions |
| PathTrie.RmTrie.BuildPath | lib/pathtricia.c:193-218 | climbing the parents and copying back gives the join of the node's element list |
| PathTrie.InsertAndBuild | lib/pathtricia.c:125-218 | the node returned for an absolute path without empty elements, or with no more than the array has slots, builds back exactly that path |
| PathTrie.ElementsFit | lib/pathtricia.c:199 | a path within PATH_MAX and without empty elements has fewer of them than the array has slots |
| PathTrie.RmTrie.Iter | lib/pathtricia.c:235-263 | a walk visits every wanted node of the subtree exactly once, parents first or last, whatever the order of children, except what a callback that returns non-zero cuts off |
| PathTrie.WalkStored | lib/treemerge.c:271 | after any such sequence a walk over the nodes with values visits exactly the element lists that were inserted, each once, parents first or last |
| PathTrie.TrimmedFits | lib/pathtricia.c:100-112 | of a path without its leading slash, as much is kept as fits the buffer |
| BlockStream.Streaming | lib/checksums/highwayhash.c:205-229 | feeding a and then b, with the bytes left over in between, is feeding both at once; for every block size and mixing function |
| BlockStream.RestLength | lib/checksums/murmur3.c:312 | the bytes left over are the total length modulo the block size |
| BlockStream.BlocksNoted | lib/checksums/highwayhash.c:205-229 | the whole blocks are mixed in one by one in order, and with the bytes left over they are all of the data |
| BlockStream.ByteDecides | lib/checksums/metrohash128.c:305-401 | if mixing in a block can be undone, inputs that differ in one byte reach different states, or leave over bytes that differ in just that one |
| HighwayHash.LastPacket | lib/checksums/highwayhash.c:86-111 | the last packet depends on the remaining bytes only, never on stale bytes of the buffer |
| HighwayHash.PaddedInjective | lib/checksums/highwayhash.c:96-109 | no remaining byte is lost in the last packet |
| HighwayHash.HashAll | lib/checksums/highwayhash.c:165-194 | the one-shot loop computes the hash of the data |
| HighwayHash.HighwayHashCat.Append | lib/checksums/highwayhash.c:205-229 | appending keeps state and packet standing for all bytes appended so far |
| HighwayHash.HighwayHashCat.Finish | lib/checksums/highwayhash.c:231-253 | finishing gives the hash of everything appended and leaves the state as it was |
| HighwayHash.HashPieces | lib/checksums/highwayhash.c:205-253 | for every way of cutting the input into appends the result is the one-shot hash of the concatenation, for each of the three finalisations |
| HighwayHash.HashTakesAll | lib/checksums/highwayhash.c:165-194 | all data is hashed: no two inputs, of whatever lengths, make the same packets and number of remaining bytes |
| HighwayRounds.HighwayHashState.UpdateLanes | lib/checksums/highwayhash.c:47-59 | the in-place loop and the four zipper merges do to the arrays what one update does to the state as a value |
| HighwayRounds.HighwayHashState.TakeRemainder | lib/checksums/highwayhash.c:86-111 | sizes, rotations and the last packet are put into the arrays as the remaining bytes demand, whatever follows them in the buffer |
| HighwayRounds.HighwayHashState.Process | lib/checksums/highwayhash.c:165-175 | the in-place computation, with the four final permutations, is the hash of the data in the arithmetic given here |
| HighwayRounds.UpdateInjective | lib/checksums/highwayhash.c:47-59 | an update can be undone: different states stay different under the same words |
| HighwayRounds.UpdateTakesAll | lib/checksums/highwayhash.c:47-59 | different words take a state to different states |
| HighwayRounds.ZipperInjective | lib/checksums/highwayhash.c:35-45 | the two zipper sums hold every byte of both words |
| HighwayRounds.PermuteInjective | lib/checksums/highwayhash.c:113-124 | a permute-and-update step can be undone although its words come from the state itself |
| HighwayRounds.OnePacketDecides | lib/checksums/highwayhash.c:165-175 | inputs of equal length that differ inside one packet, or only in the remaining bytes, never reach the same state before it is summed up |
| HighwayRounds.OpsReversible | lib/checksums/highwayhash.c:35-84 | the word operations of the hash have everything these results ask of operations |
| HighwayRounds.KeyDecides | lib/checksums/highwayhash.c:16-33 | under different keys the same input ends in different states |
| HighwayRounds.DataDecides | lib/checksums/highwayhash.c:16-130 | under any key inputs that differ in one packet, or only in the remaining bytes, end in different states, in 64-bit arithmetic and with the constants of the hash |
| HighwayAnswers.NoBytes | lib/checksums/highwayhash.c:16-156 | under the key of the bytes 0 to 31 the 64-bit hash of no data is 0x907a56de22c26e53 |
| HighwayAnswers.SevenBytes | lib/checksums/highwayhash.c:16-156 | that of the bytes 0 to 6 is 0x4d02ae1738f59482 |
| HighwayAnswers.FiftyFiveBytes | lib/checksums/highwayhash.c:16-156 | that of the bytes 0 to 54, a packet and 23 more, is 0xf89b7ff609b1c0a7 |
| StreamHashes.BlockState.FillXs | lib/checksums/metrohash128.c:87-91 | the fill moves bytes from the input to the buffer, as many as fit |
| StreamHashes.BlockState.Drain | lib/checksums/metrohash128.c:314-352 | the block loop and the store of the rest absorb buffer and input in order |
| StreamHashes.BlockState.MetroUpdate | lib/checksums/metrohash128.c:305-401 | an update with an unconditional fill keeps the state standing for all bytes fed |
| StreamHashes.BlockState.MetroSteal | lib/checksums/metrohash128.c:403-521 | the result is the Metro hash of all bytes fed, a function of state and pending bytes only |
| StreamHashes.PiecesCover | lib/checksums/metrohash128.c:415-449 | the 16, 8, 4, 2, 1 byte steps of a steal consume every pending byte once, in order |
| StreamHashes.MetroTakesAll | lib/checksums/metrohash128.c:305-449 | all data is hashed: the hash is given all of it in order, in blocks of 32 bytes and at most one piece of 16, 8, 4, 2 and 1 bytes each |
| StreamHashes.MetroByteDecides | lib/checksums/metrohash128.c:305-449 | if its steps can be undone, inputs that differ in one byte reach different states before the final mix is closed |
| StreamHashes.MetroPieces | lib/checksums/metrohash128.c:305-537 | update(a) then update(b) yields the result of update(a+b), for any number of pieces after the seed |
| StreamHashes.BlockState.MurmurUpdate | lib/checksums/murmur3.c:147-180 | an update with a conditional fill keeps the state standing for all bytes fed and the counter equal to their number modulo 2^64 |
| StreamHashes.BlockState.StealX86Narrow | lib/checksums/murmur3.c:182-208 | the x86 32-bit result is the hash of all bytes fed |
| StreamHashes.BlockState.StealX86Wide | lib/checksums/murmur3.c:299-387 | the x86 128-bit result is the hash of all bytes fed, although it goes by the low bits of the length and not by xs_len |
| StreamHashes.BlockState.StealX64 | lib/checksums/murmur3.c:465-529 | the x64 128-bit result is the hash of all bytes fed |
| StreamHashes.LanesCover | lib/checksums/murmur3.c:313-357 | the lanes of a steal take in every pending byte once, in order |
| StreamHashes.MurmurTakesAll | lib/checksums/murmur3.c:147-529 | all data is hashed: the hash is given all whole blocks in order, then the rest lane by lane from the last one down, every byte in its lane, and then the length |
| StreamHashes.MurmurPieces | lib/checksums/murmur3.c:147-543 | for each of the three variants the result does not depend on how the input was cut |
| StreamHashes.MurmurEqual | lib/checksums/murmur3.c:550-556 | equality compares state, pending bytes and length, and holds for states fed the same bytes in any pieces |
| ReadLoop.HashPipe.SendBuffers | lib/hasher.c:309-323 | exactly the first k bytes are queued in order, in non-empty buffers, and every other buffer is released |
| ReadLoop.HashPipe.UnbufferedRead | lib/hasher.c:237-344 | under any short reads, over-reads and errors, and with the hashing thread at work meanwhile, the sent buffers add exactly the file bytes from start_offset for bytes_actually_read, cut as the counts demand; success means the full request; every buffer is accounted for; the loop ends |
| ReadLoop.FullReads | lib/hasher.c:237-344 | without short counts the cuts depend on request and buffer size alone: all buffers are full but the last |
| ReadLoop.ShortReadCuts | lib/hasher.c:237-344 | a short count cuts the same data differently, and the read succeeds |
| ReadLoop.SlotsFit | lib/hasher.c:266-269 | a call has room for all of a request that four buffers can take, and no buffer too many |
| ReadLoop.HashPipe.Work | lib/hasher.c:100-125 | the hashing thread takes buffers in order, reports at the mark, and releases each buffer unless the digest keeps it |
| ReadLoop.HashPipe.HashIncrement | lib/hasher.c:443-518 | however the two threads take turns, one increment reports its digest once, after exactly the bytes read, cut as they were read; every buffer is given back or kept by the digest, and the task count is as before |
| Preprocess.SameGroup | lib/preprocess.c:38-90 | two files compare equal iff size, kind and the case-folded name, extension and stem asked for agree, except exactly when stems are asked for, neither name has an extension and the first is where the second starts |
| Preprocess.ComparesEqual | lib/preprocess.c:38-90 | the same spelled out, letter by letter |
| Preprocess.FileCmpReverse | lib/preprocess.c:67-90 | swapping two files swaps the sign if and only if they are consistent: stems are not asked for, or the files differ in what is compared before, or both names have an extension, or neither has one and none starts with the other, or the one with the extension is shorter, or as long and first by letters |
| Preprocess.NotReversed | lib/preprocess.c:50-65 | without an extension, "a" and "ab" compare equal one way round and not the other |
| Preprocess.FileCmpTransitive | lib/preprocess.c:67-90 | for consistent files the comparison is a total preorder, strict where either step is |
| Preprocess.OrderedIffConsistent | lib/preprocess.c:50-90 | the comparison orders a set of files if and only if any two of them are consistent |
| Preprocess.FullyOrderedIffBridged | lib/preprocess.c:92-103 | of consistent files, the comparison used for sorting makes an order if and only if, with a time window, no file that is within the tolerance of two others that are not within it of each other turns these round by the criteria for originals |
| Preprocess.ToleranceHasNoOrder | lib/utilities.h:76-79 | times less than the tolerance apart can compare equal in two steps and not at once |
| Preprocess.ChainsIffNoneTorn | lib/preprocess.c:92-122 | of files that can be sorted, the runs of the sorted list are the chains, however the sort breaks ties, if and only if no files are torn: no two that can become neighbours are split while a file that can stand before them, or the first, is near to one that can stand after them, or the second |
| Preprocess.ToleranceTears | lib/preprocess.c:105-122 | three files that are a chain; the sort puts one that is later by less than the tolerance before the first, and the list is split next to it |
| Preprocess.SpacedSortable | lib/preprocess.c:92-122 | consistent files can be sorted and none are torn if there is no time window, or if times are equal or further apart than the tolerance |
| Preprocess.Boundary | lib/preprocess.c:105-122 | in a sorted list a split between neighbours, by the comparison or by a gap longer than the time window, separates everything before from everything after |
| Preprocess.ClassIffLinked | docs/rmlint.1.rst:624-629 | with a time window, files are of one class iff they are joined by a chain of files of which neighbours compare equal and are within the window |
| Preprocess.RmSession.RemovePathDoubles | lib/preprocess.c:496-512 | keeps the first file of every path, in order, and counts the others |
| Preprocess.RmSession.BundleHardlinks | lib/preprocess.c:514-526 | only the head file stays, with the whole cluster bundled under it if asked for |
| Preprocess.RmSession.HandleInodeCluster | lib/preprocess.c:536-592 | an inode leaves its representative, or nothing, in the group; the counter drops by what was removed |
| Preprocess.RepresentativeIsFirst | lib/preprocess.c:536-592 | an inode keeps a file iff one of its files is a duplicate candidate and not a path double, and it is the first such file |
| Preprocess.BestIsKept | lib/preprocess.c:92-103 | the file kept for an inode is, by time and then by the criteria for originals, not worse than any other candidate of the inode in its group, whatever the order the files came in; only path doubles of other lint do not count |
| Preprocess.RmSession.ProcessGroup | lib/preprocess.c:674-694 | a run becomes the group of its representatives, one per inode, in any order of the hash table, or no group if there are none |
| Preprocess.RmSession.Preprocess | lib/preprocess.c:643-698 | the groups are exactly the classes of files cut down to their representatives, none empty, each inode at most once per group, the largest sizes first; total_filtered_files is the sum of the group sizes; exactly the representatives of inodes with more eligible files have these bundled, if asked for, and exactly the other lint is set aside that is no path double, not too old and not protected |
| Preprocess.TogetherIffLinked | lib/preprocess.c:105-122 | two kept files share a group iff they are joined by such a chain; without a time window, iff they compare equal |
| Preprocess.NoInodeLost | lib/preprocess.c:536-592 | an inode with an eligible file is represented in its group |

## Left out

- SieveTheorems.Soundness: takes the digest to be injective on the data it covers; a collision of the real checksum is outside the model. Hardlinks and files with equal stored checksums form one cluster that is taken to have one content.
- SieveTheorems.ReportedExactly: files are taken not to change while they are read, and to be read in one way; `--mtime-window` and unmatched-basename rejects, which split a group after it was reported, are not modelled.
- SieveTheorems.CallbackAssertion: a thread reads back the offset it planned in the step that limits it, so that it never reads with another thread's offset.
- SieveRun.StepInv: the walk up the parents is one step that finds any count; a group that asks keeps its parent until the request is decided; and the test of a push comes before the file's own group counts it out, which only unlocked readers could notice.
- SieveProgress.Progress: the step it gives has the walk up the parents find the true count; aborting can happen at any time but is not needed for progress; waiting on a file's own increment and going through the device queue are the same steps.
- SieveTermination.ReachesEnd: says that the end can be reached; a schedule that keeps raising and refusing the same request is not excluded. With two requests for one group under way and no second charge yet, it depends on how they are decided.
- SieveEnding.EndsIfAndOnlyIfAllFit: once a size group that does not fit got its memory all the same, the end depends on how its files fall into child groups, and `SieveEnding.EndsUnlessStarving` applies. Leaks are excluded for the direction that the sieve cannot end, because they add to the bank.
- SieveRun.ReadConserves: exact for one step; whole runs assume symlink targets of at most eight pages and 16 MiB, which path lengths ensure, and then the counter is always right.
- ReadSize.IncrementBounds: for pages of at most 64 MiB.
- ShredGroup.RmShredGroup.CheckParanoidMemAlloc: one thread, undisturbed; the interleavings are those of the transition system.
- CountTree.CountTree.CountFiles: starts after the directory walk, from the paths it found; the walk itself is not modelled. Paths are component lists.
- TreeMerge.RmTreeMerger.ClusterAll: fed files were counted and number fewer than 2^32-1. Directories are values keyed by path; their preferred-file and merge-up counts and the later extraction and reporting order are not modelled. Equal keys are not claimed to mean equal content.
- TreeMerge.KeysIffAlike: for digests that make a fresh digest choose one length, as those of one checksum type do.
- SieveTwins.TwinsKnown: what a listed digest does with the candidates it is told of is `Paranoid.RmParanoid.BufferedUpdate`; files that are symlinks are there only when symlinks are seen.
- Paranoid.DigestEqual: the shadow hash is any function of the data. Candidates are complete, have the same number of bytes and do not change while they are candidates.
- Scheduler.FreedAtEnd: one device, since devices do not interact; clients hold one reference per outstanding task and take none at 0 once workers run. The timed wait and the sleep are not modelled.
- PathTrie.RmTrie.BuildPath: for nodes whose elements fit the element array, as all without empty elements do, and whose path fits the buffer, which the source leaves to its callers. The lock, the string chunk and freeing are not modelled.
- PathTrie.InsertAndBuild: a path with more empty elements than the array has slots is left out for the same reason; what the source does then is undefined.
- HighwayHash.HashAll: the arithmetic of a packet, of the stirring and of the finalisations is any function; `HighwayRounds.dfy` gives the packets, the stirring and the final permutations, `HighwayAnswers.dfy` the 64-bit sum. The blocks, tails and finalisations of Metro and Murmur3 stay any functions.
- HighwayRounds.DataDecides: says nothing of inputs that differ in several packets, nor of the sums that turn the last state into 64, 128 or 256 bits, where collisions must exist.
- StreamHashes.BlockState.MetroUpdate: for keys within the range of the int casts of the fill macro; the 256-bit variant, which runs two states side by side, and the CRC variants, which differ in the block arithmetic only, have no model of their own.
- ReadLoop.HashPipe.UnbufferedRead: the kernel's answers are a script, and the hashing thread handles any number of buffers after each one that is sent; the blocking of the semaphore, the buffered reader and reading symlinks are not modelled.
- Preprocess.RmSession.Preprocess: for files that the comparisons put in an order, of which none are torn, which `Preprocess.OrderedIffConsistent`, `Preprocess.FullyOrderedIffBridged` and `Preprocess.ChainsIffNoneTorn` say exactly. Without an order nothing is known about the list that a sort leaves. Times are real numbers; the criteria that pick originals are a rank. What happens to other lint after it is set aside is not modelled.
- Counters and sizes are unbounded integers except where the width is the point (increment sizes, the Murmur3 length, the unsigned error count).
- Clustering by stored checksums, hardlink unbundling in the result factory, xattrs, progress output, formatters, replay and the command line are not modelled; they would add little to prove.
- File system calls, GLib containers and thread pools are taken as their usual meaning: sequences, maps, sets and atomic steps.
