# Models of MPlayer's core data structures

This project models seven parts of the player in Dafny and proves what they are relied on for.

* **The hierarchical allocator** (`TallocForest`, `TallocOwnership`, `TallocPaths`, `TallocCells`, `TallocCascade`,
  `TallocStale`, `TallocTurns`, `TallocInner`, `TallocLoop`, `TallocHeap`, `TallocTheorems`, `TallocApi`,
  `TallocWatched`, `TallocExamples`, `TallocRealloc`, `TallocRuns`, `TallocPool`). Chunk headers are maps from addresses, one for each
  field, and the methods rewrite them as the source rewrites its pointers. A forest (who is whose parent, the order of
  the children, the order of the references, which chunks are in the middle of being freed) says what the headers
  mean. Every call keeps the headers a faithful picture of a well-formed forest; the theorems say what a free does to
  ownership.
* **The option store** (`Config`, `Profiles`): levels of saved values, and profiles that include profiles.
* **The playlist tree** (`PlayTree`, `PlayTreeEdit`, `CommandLine`, `PlayTreeIter`, `Shuffle`, `Playback`): the linked
  nodes, the loop over the command line that builds them, the cleanup that prunes them and the iterator that walks them
  while it pushes and pops options, in order or shuffled. `Playback` puts these together: the files given on a command
  line are the files that play, each with the options written for it.
* **The template expander** (`Template`): one pass with three variables against recursive evaluation.
* **The line reader** (`LineReader`): lines of a stream through a growing buffer.
* **Option values** (`StrList`, `Subconf`): lists with escaped separators, and suboptions.
* **Byte strings** (`Bstr`): lines and UTF-8 (section 3 of RFC 3629).

`Common` holds what several modules use. Objects whose methods update them are classes here; each method says what
state it leaves in terms of a specification, and the lemmas are about the specification.

## Where the code does not do what it is for

* `talloc.c:569-578` picks the new owner of a child that stays referenced before it frees the child. With several
  references, the newest of them from below the child itself, the choice makes a cycle
  (`TallocExamples.BackReferenceBreaksHandOver`); it is sound exactly in the other case
  (`TallocTheorems.HandOverSoundIff`).
* `talloc.c:549-557` leaves the freed chunk pointing at the sibling before it. If that sibling is a reference to
  something below the chunk, the free may release it and then look for the parent of the chunk through it, in two
  places. Releasing it alone does no harm (`TallocExamples.StaleSiblingFreed`).
  * Line 576 asks for the parent of the chunk when a child stays whose newest reference has no context
    (`TallocExamples.SiblingFollowed`).
  * Line 523 asks whether the newest reference of a child is from below it, and climbs through the chunk if the
    reference is from below another child. One reference to each chunk and none from NULL is enough for that
    (`TallocExamples.SearchFollowed`); it depends on the order of the children (`TallocExamples.SearchedFreed`).

  `TallocStale.Followed` describes heaps on which this happens, as they are before the call. Nothing refers to the
  chunk; the sibling before it refers to something that the turn of one of its children reaches, with nothing on the way
  kept by another reference; and the turn of a later child climbs through the chunk. It does if the newest reference of
  that child has no context, or is from below another child from which the chain of holders leads behind it: each child
  of the chain is handed to something below the next one, so what it holds moves along. A reference that is itself a
  child of the chunk ends the chain, because what it holds stays where it is.

  On plain heaps (`TallocStale.Plain`) this is exact: `TallocWatched.FreeWatched` carries the free out on the headers and
  comes to such a link, at line 523 or at line 576, if and only if `Followed` holds. Plain means: references into the
  subtree are from outside, or from below the chunk to children of it that have no other reference; there is no
  ownership cycle; NULL holds at most children of the chunk; and a sibling that refers into the subtree is the only
  reference to its target, below a child that is not referenced from below the chunk. `TallocStale.MayFree`, the
  condition for a free in general, excludes the heaps that `Followed` describes (`TallocLoop.MayFreeNotFollowed`), and
  of the plain heaps no other (`TallocLoop.MayFreeIff`); elsewhere it is sufficient.
* A shuffled root with loop count L > 0 is played L + 1 times (`Shuffle.PlayAll`, `playtree.c:533-538`), one that is played
  in order L times (`PlayTreeIter.PlayToEnd`): the first pass is counted in one mode and not in the other.
* `talloc.c:1001-1016` counts a member out of its pool without looking whether it was the last one, so a pool that was
  freed before is never released (`TallocPool.LeakByRealloc`, and the exact case in `TallocPool.Pool.Realloc`).
* A list whose elements may end in a backslash, and suboptions that end in a blank one, cannot be written
  (`StrList.SplitPrinted`, `Subconf.ParsePrinted` say exactly which can).
* A template that ends in a lone backslash makes the expander read past its end (`Template.Expand`).

## Model

| member | source | states |
|---|---|---|
| `TallocHeap.Talloc.ParentChunk` | talloc.c:223-235 | walking back over the siblings and then up gives the parent of the chunk in the forest, from a chunk in the middle of being freed as long as the sibling it points back at is there |
| `TallocHeap.Talloc.IsParent` | talloc.c:1742-1759 | true exactly if the chunk is the other one or below it, if the walk up meets no link to a released sibling before it can stop |
| `TallocHeap.Talloc.UnhookFirst` | talloc.c:204-217 | the links after taking the first child off its list, with the parent link handed to the next child |
| `TallocHeap.Talloc.UnhookLater` | talloc.c:204-217 | the links after taking a later child off its list, its own links left stale |
| `TallocHeap.Talloc.Unhook` | talloc.c:549-557 | whichever way a chunk was listed, the remaining links represent the forest with that chunk unlisted |
| `TallocHeap.Talloc.Steal` | talloc.c:614-664 | the heap represents the same forest with the chunk as first child of its new parent, or as a root, and every other parent as before |
| `TallocHeap.Talloc.Alloc` | talloc.c:330-378 | the heap gains one chunk, first child of its context, and stays a well-formed forest |
| `TallocHeap.Talloc.Reference` | talloc.c:479-498 | a new handle hangs from the context and is first on the reference list of the chunk |
| `TallocHeap.Talloc.UnlistHandle` | talloc.c:435-441 | the doubly linked reference list loses exactly this handle |
| `TallocHeap.Talloc.DestroyHandle` | talloc.c:435-441 | the reference destructor takes the handle off the list of its target and changes nothing else |
| `TallocHeap.Talloc.Free` | talloc.c:504-607 | terminates; a chunk being freed already is left alone; otherwise the effect on the forest is FreeEffect: nothing freed twice, nothing outside the region moved or freed except handles |
| `TallocHeap.Talloc.FreeReferenced` | talloc.c:514-529 | a referenced chunk loses its newest reference, and is freed only if the owner of that reference is below it |
| `TallocHeap.Talloc.Release` | talloc.c:549-606 | unlinks, drains the children, releases the memory: the region is tightened and the chunk dropped |
| `TallocHeap.Talloc.Drain` | talloc.c:561-580 | the loop over the children ends with none left, each freed or handed on; it never reads the link of a released sibling |
| `TallocHeap.Talloc.HandOverTo` | talloc.c:565-580 | a child that stays referenced goes to the context of its newest reference, else to the parent, and the forest stays well formed |
| `TallocForest.ParentNotBelow` | talloc.c:223-235 | no chunk is below its own child: the parent links are acyclic |
| `TallocForest.MoveWF` | talloc.c:614-664 | re-parenting under a chunk outside the moved subtree keeps the forest well formed |
| `TallocForest.DetachWF` | talloc.c:549-557 | a chunk in flight with stale links leaves a well-formed forest, whatever becomes of the sibling it points back at |
| `TallocForest.DropWF` | talloc.c:584-606 | releasing a drained chunk in flight leaves a well-formed forest |
| `TallocForest.AttachWF` | talloc.c:479-498 | adding a handle to a reference list keeps every list exactly the live handles of its chunk |
| `TallocForest.RemoveHandleWF` | talloc.c:514-529 | freeing a handle keeps the forest well formed |
| `TallocForest.MoveHeadIsNoop` | talloc.c:645-647 | stealing the first child of a parent for that same parent changes nothing, as the early return assumes |
| `TallocCells.WalkBack` | talloc.c:223-235 | one step of the walk goes to a live sibling with the same parent that comes earlier in the list, also from a chunk in flight whose sibling is still there |
| `TallocOwnership.HandOverWF` | talloc.c:565-580 | handing a held child to its receiver keeps the forest well formed |
| `TallocOwnership.BackReferenceCycles` | talloc.c:569-578 | a newest reference from below the child means an ownership cycle |
| `TallocOwnership.HeldHead` | talloc.c:514-529 | what stays of a held chunk is headed by a reference from outside its subtree |
| `TallocCascade.FreeAgain` | talloc.c:523-528 | dropping a reference from inside and freeing again has the effect of one free |
| `TallocCascade.FreeHeld` | talloc.c:523-528 | dropping the newest reference from outside is all that a failed free does |
| `TallocCascade.DrainFreed` | talloc.c:561-580 | one child freed carries the effect of the loop one turn further |
| `TallocCascade.DrainHanded` | talloc.c:561-580 | one child handed on carries the effect of the loop one turn further |
| `TallocCascade.ReadyClear` | talloc.c:514-524 | asking whether the newest reference is from below the chunk reads no link of a released sibling |
| `TallocPaths.HandOverTrails` | talloc.c:561-580 | a hand-over leaves what is still below a chunk in flight below whatever of its ancestors is left |
| `TallocTheorems.NoLeak` | talloc.c:504-607 | whatever of the subtree survives a free was owned from outside the subtree |
| `TallocTheorems.ExactSurvival` | talloc.c:504-607 | where no ownership cycle passes through the subtree and NULL holds no reference into it, a chunk below the freed one survives if and only if a chunk outside owns it along a chain avoiding the freed one |
| `TallocTheorems.OutsideUntouched` | talloc.c:504-607 | outside the subtree a free removes at most reference handles into it and re-parents nothing |
| `TallocTheorems.HeldByOne` | talloc.c:514-529 | a chunk held by one reference from outside loses that handle, keeps everything else, and the call returns -1 |
| `TallocTheorems.StealSoundIff` | talloc.c:614-664 | re-parenting keeps the heap a forest if and only if the new parent is not below the chunk |
| `TallocTheorems.HandOverSoundIff` | talloc.c:565-580 | the owner chosen for a child that stays referenced is sound if and only if its newest reference is not from below the child |
| `TallocExamples.BackReferenceBreaksHandOver` | talloc.c:569-578 | a concrete well-formed heap with two references on which that choice makes a cycle |
| `TallocLoop.MayFreeReady` | talloc.c:504-607 | what a caller must ensure before a free is all the cascade needs at every level |
| `TallocLoop.MayFreeIff` | talloc.c:504-607 | on plain heaps the caller's condition holds exactly where neither the search at line 523 nor the one at line 576 goes back through the released sibling |
| `TallocLoop.MayFreeNotFollowed` | talloc.c:504-607 | the caller's condition excludes every heap that `Followed` describes: those on which the turn of a later child climbs through the chunk after the sibling went |
| `TallocTurns.ReachedGone` | talloc.c:514-580 | a reference goes with the free if nothing keeps its target or anything above it up to the freed child |
| `TallocTurns.UnreachedStays` | talloc.c:514-580 | a reference stays if something on the way down to its target is kept by another reference |
| `TallocStale.WatchSame` | talloc.c:561-580 | the turn of a child that is freed, or handed to something outside, does not change whether the free is going to read the link of a released sibling |
| `TallocInner.TripsJoined` | talloc.c:565-580 | when a child moves below another one, which children are held from below a child still to come stays the same for all the others |
| `TallocInner.InnerSame` | talloc.c:565-580 | the turn of a child that is handed to something below another child does not change whether the free is going to read the link of a released sibling |
| `TallocWatched.SearchMeets` | talloc.c:1742-1759 | the search for an ancestor comes to a link of a released sibling exactly if a chunk with such a link is on its way and the ancestor is not |
| `TallocWatched.SearchVerdict` | talloc.c:514-524 | the search on the turn of a first child meets the released sibling only on heaps whose verdict says so, and otherwise the child can be freed |
| `TallocWatched.FreeWatched` | talloc.c:504-607 | carried out on the headers, a free comes to read the link of a released sibling, at line 523 or at line 576, if and only if the condition on the heap before the call says so, and otherwise has its promised effect |
| `TallocExamples.SiblingFollowed` | talloc.c:549-576 | a heap, built by six calls, on which the free goes back through a sibling that it has released to find a new parent |
| `TallocExamples.SearchFollowed` | talloc.c:514-557 | a heap with at most one reference to each chunk and none from NULL on which the free goes back through a released sibling to see whether a reference is from below |
| `TallocExamples.SearchedFreed` | talloc.c:514-557 | the same chunks in another order: that search comes before the sibling goes, and the free is right |
| `TallocExamples.StaleSiblingFreed` | talloc.c:549-576 | a heap on which the free releases the sibling before the chunk and is right all the same |
| `TallocApi.TallocFree` | talloc.c:504-607 | a top-level free has the effect of the cascade on the subtree of the chunk, and nothing is left in flight |
| `TallocApi.TallocFreeChildren` | talloc.c:873-903 | frees or hands on every child, confined to what is below the chunk |
| `TallocApi.SearchHandle` | talloc.c:673-695 | finds the newest handle of the chunk that hangs from the context |
| `TallocApi.FirstFromNewest` | talloc.c:673-695 | of several references held by the same context it is the newest |
| `TallocApi.Unreference` | talloc.c:673-695 | succeeds exactly if the context holds a reference, and removes exactly the newest one it holds |
| `TallocApi.OwnersAfterRemove` | talloc.c:673-748 | removing a handle takes exactly one occurrence of its context out of the owners |
| `TallocApi.Unlink` | talloc.c:701-748 | succeeds exactly if the context owns the chunk, removes exactly one of its ownerships, and frees the chunk exactly if that was the last owner; a parent that holds a reference too gives up the reference, and otherwise the newest reference becomes the parent |
| `TallocApi.UnlinkSpares` | talloc.c:701-748 | an unlink that leaves other owners frees one handle of the chunk and nothing else, and re-parents no other chunk |
| `TallocApi.PromoteReference` | talloc.c:728-747 | when the parent is unlinked, the newest reference turns into the parent link |
| `TallocRealloc.MoveChunk` | talloc.c:1018-1044 | after a chunk moved, every pointer at it follows: the heap represents the same forest with the new address |
| `TallocRealloc.RenamedWF` | talloc.c:1018-1044 | renaming a chunk that nothing refers to keeps the forest well formed |
| `TallocRealloc.Realloc` | talloc.c:959-1050 | size zero frees, NULL allocates; a size out of range or a referenced chunk aborts and nothing else does; a shrink by less than 1024 bytes stays in place, anything else is where the system put it, and the forest is the same up to the new address; no chunk comes to use more bytes than the system gave out for it |
| `TallocRuns.StepSafe` | talloc.c:330-903 | every call on a heap in order leaves a well-formed forest with nothing in the middle of being freed, and a size for every chunk that fits the bytes given out for it |
| `TallocRuns.RunSafe` | talloc.c:330-1050 | along every run of allocations, references, steals, reallocations, unreferences, unlinks and frees from a heap in order, the heap stays in order, and no chunk uses more bytes than the system gave out for it |
| `TallocRuns.RunSpares` | talloc.c:330-1050 | along every run a chunk stays alive and keeps its size while nothing above it is freed and it is not reallocated, and keeps its parent while it is not stolen |
| `TallocRuns.ReturnedLive` | talloc.c:959-1050 | a reallocation that is not refused returns a live chunk of the size asked for, usable as a context and free of references; it is not where the system put it only for a shrink by less than 1024 bytes |
| `TallocRuns.Perform` | talloc.c:330-1050 | a sequence of calls made on the headers goes through the states of such a run, where the sizes tell which way every reallocation goes |
| `TallocRuns.MovedThenFreed` | talloc.c:959-1050 | a sequence that allocates by reallocation, moves the chunk, allocates below the new address and frees it there can be made |
| `TallocPool.Pool.Cut` | talloc.c:294-325 | the bump pointer never passes the end of the block, and fails exactly if there is not enough left |
| `TallocPool.Pool.Alloc` | talloc.c:280-325 | a new member overlaps no live member and lies inside the block |
| `TallocPool.Pool.FreeMember` | talloc.c:584-602 | the block is released exactly with the last of the members and the pool |
| `TallocPool.Pool.FreePool` | talloc.c:584-602 | freeing the pool releases the block only if no member is live |
| `TallocPool.Pool.Rewind` | talloc.c:904-911 | the block starts over only if no member is live |
| `TallocPool.Pool.Realloc` | talloc.c:1001-1016 | the three ways a member is reallocated; the block is left behind unreleased exactly if the pool was freed, the member is the only live one, there is more than a small shrink to do, and too little room is left |
| `TallocPool.LeakByRealloc` | talloc.c:1001-1016 | a run that ends with nothing in use and the block not released |
| `Config.MConfig.AddOption` | m_config.c:330-392 | an option is an alias exactly if one was registered for the same variable before; aliases never save |
| `Config.MConfig.Push` | m_config.c:237-268 | one level more, and the values of every saveable variable are kept for it |
| `Config.MConfig.Pop` | m_config.c:273-307 | one level less, every saved variable is back at its value at the matching push, and every other keeps its value |
| `Config.MConfig.PopOption` | m_config.c:286-303 | exactly the slot of the current level goes and its predecessor is restored |
| `Config.MConfig.SetOption` | m_config.c:430-496 | writes the parsed value to the variable of the first option of that name and to no other, or reports an unknown name or an unusable value and writes nothing |
| `Config.SetToIs` | m_config.c:430-496 | setting an option changes the variable of the first option of that name to the parsed value, and nothing if there is no variable or no value |
| `Config.SavedIs` | m_config.c:237-268 | a variable is saved exactly if its option registered first is no group of options, is neither global nor marked as not to be saved, and can be copied |
| `Config.Perform` | m_config.c:237-307 | a well-bracketed run of pushes, sets and pops has the meaning given by Exec |
| `Config.NothingLeaks` | m_config.c:237-307 | on saved variables a run leaves what it leaves without its brackets |
| `Config.ExecSameOn` | m_config.c:237-307 | the saved variables after a run depend on the saved variables before it only |
| `Config.OneSaver` | m_config.c:353-368 | every saved variable is saved by exactly one option, the first registered |
| `Profiles.Profiles.SetProfile` | m_config.c:679-694 | terminates, restores mode and depth, and sets exactly what the bounded expansion of the profile says |
| `Profiles.Profiles.ParseProfile` | m_config.c:51-87 | applies the known profiles of the list in order; the result tells whether all were known |
| `Profiles.AppliedPlain` | m_config.c:679-694 | plain options of a profile are set in order, as they are written and in the mode of a configuration file |
| `Profiles.AppliedInclude` | m_config.c:679-694 | an included profile sets its options in the place where it is included |
| `Profiles.BoundUnseen` | m_config.c:679-694 | profiles nested no deeper than the bound are applied in full, at whatever depth they start |
| `Profiles.SelfIncluding` | m_config.c:679-694 | a profile that includes itself sets its option once for each of the 21 levels, and nothing else |
| `PlayTree.IsValid` | playtree.c:588-603 | true exactly if there is an entry in the tree |
| `PlayTreeEdit.Store.Remove` | playtree.c:154-187 | the siblings close up, the parent points at the first of those left, and nothing else changes |
| `PlayTreeEdit.Store.Free` | playtree.c:46-76 | the node and all below it are gone, its siblings and everything else stand |
| `PlayTreeEdit.Store.Append` | playtree.c:96-113 | the new node is the last sibling |
| `PlayTreeEdit.Store.Prepend` | playtree.c:115-134 | the new node is the first sibling, and the parent points at it |
| `PlayTreeEdit.Store.Insert` | playtree.c:136-152 | the new node comes right behind the given one |
| `PlayTreeEdit.Store.SetChild` | playtree.c:189-217 | the whole sibling list becomes the children, and the former children lose their parent |
| `PlayTreeEdit.Store.DropInvalid` | playtree.c:714-724 | the first loop leaves exactly the children that have something to play, and knows the first of them |
| `PlayTreeEdit.Store.Cleanup` | playtree.c:704-734 | the tree stands for its cleaned form, or is gone if it had nothing to play; nothing else changes |
| `PlayTreeEdit.CleanedClean` | playtree.c:704-734 | in a cleaned tree every group has children and all of them are clean |
| `PlayTreeEdit.FlatCleaned` | playtree.c:704-734 | cleaning up does not change what is played, and only trees that play nothing disappear |
| `PlayTreeIter.PlayTreeIter.constructor` | playtree.c:414-437 | an iterator before its first step has changed nothing |
| `PlayTreeIter.PlayTreeIter.PushParams` | playtree.c:384-412 | one push, then the parameters of the node in order |
| `PlayTreeIter.PlayTreeIter.Step` | playtree.c:480-586 | a forward step returns the next entry of the flattened tree or the end; a step of any number of places to an entry of the same list plays it, and one to a group stops there when asked to; past either end of a list with passes left it begins again at the other end and counts the pass; after every step the option level is the base plus one for each group above and one for a playing entry |
| `PlayTreeIter.PlayTreeIter.Sibling` | playtree.c:505-521 | the node that many siblings away, or none |
| `PlayTreeIter.PlayTreeIter.NoNext` | playtree.c:523-549 | past the last sibling a group with passes left starts over, and otherwise the walk goes on above |
| `PlayTreeIter.PlayTreeIter.Arrive` | playtree.c:551-586 | at a group the first entry in it is found; at an entry its options are set |
| `PlayTreeIter.PlayTreeIter.PlayEntry` | playtree.c:570-583 | an entry plays with the values that the groups above it and its own parameters give |
| `PlayTreeIter.PlayTreeIter.DownStep` | playtree.c:643-675 | entering a group finds its first entry, with its remaining passes pending |
| `PlayTreeIter.PlayTreeIter.UpStep` | playtree.c:605-641 | leaving a group goes on after it, with its options taken back, also when an entry was still playing |
| `PlayTreeIter.LevelFor` | playtree.c:384-412 | saved option sets are one for each group above and one for a playing entry |
| `PlayTreeIter.Play` | playtree.c:480-675 | any number of forward steps gives the first entries of the flattened tree, each playing with the option values its own path gives; a group of entries plays them in turn, without end if its loop count is negative |
| `PlayTreeIter.PlayToEnd` | playtree.c:480-675 | without endless groups the steps give exactly the flattened tree and then the end; a group of entries with loop count L plays all of them L times in turn, and once for 0 |
| `PlayTreeIter.FiniteFlat` | playtree.c:533-545 | without endless groups the flattening does not depend on how far endless groups are unrolled |
| `PlayTreeIter.GroupPlays` | playtree.c:523-549 | a group of entries with loop count L plays them in order L times, once for 0, and over and over for a negative count |
| `PlayTreeIter.LastSet` | playtree.c:384-412 | of the parameters applied to an entry the last one for a variable decides its value |
| `PlayTreeIter.NeverSet` | playtree.c:384-412 | a variable that none of them sets keeps its value |
| `Shuffle.CountPass` | playtree.c:457-464 | counts exactly the siblings not played yet, wherever it starts |
| `Shuffle.PickPass` | playtree.c:470-473 | finds an entry for every draw in range, the one with that number |
| `Shuffle.RndStep` | playtree.c:452-477 | returns nothing exactly if all were played, and otherwise one not played |
| `Shuffle.Shuffler.Step` | playtree.c:480-586 | a step among shuffled children ends exactly if all were played and no pass is left; it plays one that was not, or any one when a new pass begins, with its own options, and marks it |
| `Shuffle.PlayAll` | playtree.c:480-586 | whatever is drawn, a root with loop count L plays every child exactly L + 1 times before the end, pass by pass, with the values that the group and its own parameters give |
| `CommandLine.Builder.AddFile` | parser-mpcmd.c:243-287 | a file becomes the last child of the innermost open group |
| `CommandLine.Builder.OpenGroup` | parser-mpcmd.c:128-141 | a new last child, which is the innermost open group now |
| `CommandLine.Builder.CloseGroup` | parser-mpcmd.c:143-151 | back to the group around, or an error if there is none |
| `CommandLine.Builder.SetLoop` | parser-mpcmd.c:158-172 | the loop count of the last group or of the group just opened; for a file an option like others |
| `CommandLine.Builder.SetParam` | parser-mpcmd.c:216-226 | an option for the last entry, or for the group just opened |
| `CommandLine.Builder.Parse` | parser-mpcmd.c:119-293 | the linked tree stands for what the arguments mean, or there was a brace too many |
| `CommandLine.ReadPrinted` | parser-mpcmd.c:119-293 | the arguments for a nested playlist mean that playlist, however they are written: settings of a group behind its opening or its closing brace, any number up to 0 for without end, a loop of a file as its option, global options and a loop count for everything in front |
| `CommandLine.BraceTooMany` | parser-mpcmd.c:143-151 | a closing brace too many is an error, whatever is around it |
| `CommandLine.BraceMissing` | parser-mpcmd.c:292-294 | a group that is not closed ends with the arguments |
| `CommandLine.PutStands` | parser-mpcmd.c:41-49 | a change inside the innermost group leaves the whole tree standing |
| `CommandLine.Rebuild` | parser-mpcmd.c:119-293 | a nested playlist written as arguments is rebuilt in linked nodes |
| `Playback.TracksFlat` | playtree.c:480-675 | the entries of a tree in playing order are the files of the playlist it stands for, with the parameters that apply to them |
| `Playback.CuesCleaned` | playtree.c:704-734 | cleaning up changes neither the order nor the parameters that apply |
| `Playback.PathParams` | playtree.c:384-412 | the parameters that apply to an entry are those of the groups on its path and its own |
| `Playback.TrackParams` | playtree.c:384-412 | what applies to a file is what is set around it, outermost first, and then what is set for it |
| `Playback.TrackValue` | playtree.c:384-412 | a saved variable plays with the value that was set for it last, by whichever group or file |
| `Playback.TrackKeeps` | playtree.c:384-412 | a saved variable that is not set for a file plays with its value from before |
| `Playback.EntryPlays` | playtree.c:523-549 | without endless groups an entry plays as often as the loop counts of the groups around it multiply to |
| `Playback.OverlayIs` | playtree.c:384-412 | the values along a path are what the parameters above it set |
| `Playback.ReadyToPlay` | playtree.c:704-734 | a cleaned tree is what the iterator needs, and plays the same |
| `Playback.PlayArguments` | playtree.c:480-734 | building, cleaning up and stepping plays the files of the written playlist in order, groups and the whole repeated, each with the base values overlaid by the parameters of the groups written around it and its own |
| `Template.NextComplete` | m_property.c:131-198 | taking off one piece does not change whether the template ends in a lone backslash |
| `Template.ParsePrint` | m_property.c:124-208 | a tree of texts, properties and nested conditions is parsed back from its escaped text, texts character by character, whichever escape each character is written with |
| `Template.SplitPrint` | m_property.c:124-208 | splitting texts into characters changes neither what is printed nor what it evaluates to |
| `Template.MeaningOfPrint` | m_property.c:124-208 | the escaped text of a tree means what the tree evaluates to |
| `Template.LetterEscapes` | m_property.c:132-157 | the escapes by letter stand for ESC, newline, carriage return and tab |
| `Template.OtherEscapes` | m_property.c:132-157 | any other character behind a backslash stands for itself |
| `Template.HexEscapes` | m_property.c:143-157 | what follows a hexadecimal escape: two digits, one digit, a digit behind a space or a sign, or none |
| `Template.TextMeans` | m_property.c:190-191 | text that opens nothing stands for itself, also a parenthesis outside of conditions and an opening that is never closed |
| `Template.PropMeans` | m_property.c:162-173 | a property stands for its text, or for nothing if it has none |
| `Template.CondMeans` | m_property.c:158-189 | a condition stands for what is in it exactly if the property is there, or is not there when negated |
| `Template.OpenCondMeans` | m_property.c:158-189 | a condition that is not closed reaches to the end |
| `Template.FinishOpen` | m_property.c:174-189 | opening a condition adds it to the open ones, whether or not it is looked up |
| `Template.FinishClose` | m_property.c:158-161 | a closing parenthesis takes the innermost open condition away |
| `Template.Escape` | m_property.c:132-157 | the text and the length of every backslash escape |
| `Template.Append` | m_property.c:196-201 | text is added at the end and there is always room for the terminator |
| `Template.Turn` | m_property.c:131-204 | one turn of the loop keeps output plus remaining meaning the same |
| `Template.Expand` | m_property.c:124-213 | the output is the recursive evaluation of the template, for every template that does not end in a lone backslash |
| `LineReader.Reader.Fill` | playtreeparser.c:99-109 | what is read joins the stored text with NUL bytes turned into newlines |
| `LineReader.Reader.Grow` | playtreeparser.c:84-97 | a larger buffer with the same text and room to read |
| `LineReader.Reader.LineEnd` | playtreeparser.c:82-121 | finds the end of the next line of the whole text, whatever the sizes of the reads |
| `LineReader.Reader.GetLine` | playtreeparser.c:65-147 | returns the next line of the whole text without its line end, and nothing exactly if the stream has ended and all was returned |
| `LineReader.Reader.Reset` | playtreeparser.c:149-151 | goes back to the start of everything kept |
| `LineReader.Reader.StopKeeping` | playtreeparser.c:153-163 | forgets what was returned, and nothing else |
| `LineReader.ReadAll` | playtreeparser.c:65-147 | the lines of the whole text, and at most one empty line more |
| `LineReader.Reread` | playtreeparser.c:148-151 | reading again after a reset gives the lines again |
| `LineReader.ReadThenStop` | playtreeparser.c:153-163 | stopping to keep in the middle loses no line and repeats none |
| `LineReader.LinesOfJoined` | playtreeparser.c:99-147 | lines ended by a newline, a NUL byte or a carriage return and a newline are read back |
| `StrList.NextSep` | m_option.c:627-647 | steps over one element; unescaping in place leaves the element and the rest of the text where they belong |
| `StrList.CountSplit` | m_option.c:684-713 | the extracting pass finds as many elements as the counting pass or one more |
| `StrList.SplitPrinted` | m_option.c:627-713 | a printed list splits into itself if and only if no element but the last ends in a backslash |
| `StrList.CountPrinted` | m_option.c:684-691 | the counting pass finds all elements of a printed list but an empty one at its end |
| `StrList.ExtractPass` | m_option.c:700-713 | the elements and the terminator fit into the slots counted for them |
| `StrList.Add` | m_option.c:546-573 | the new elements come behind the old ones, or before them |
| `StrList.Del` | m_option.c:575-625 | exactly the elements at the named places go, the rest keeps its order, and an empty list becomes NULL |
| `StrList.OneGone` | m_option.c:575-625 | one index in range takes exactly that element out, and one out of range none |
| `StrList.ParseStrList` | m_option.c:649-730 | the list becomes the new elements, or gets them behind or in front, or loses the named places, or is cleared; a missing parameter or a number of elements out of range is an error |
| `StrList.SetPrinted` | m_option.c:649-730 | an option set to a printed list holds that list if and only if the list can be written |
| `Subconf.PassConsumes` | m_option.c:851-893 | every pass of the loop that goes on uses up some of the parameter, and no more than there is |
| `Subconf.ReadDec` | bstr.c:139-151 | a printed length reads back, whatever follows it |
| `Subconf.ReadHex` | bstr.c:139-151 | a hexadecimal number is read with its sign |
| `Subconf.ReadOct` | bstr.c:139-151 | an octal number is read with its sign |
| `Subconf.FieldPrinted` | m_option.c:852-886 | a suboption reads back in each of the forms its value fits |
| `Subconf.ParsePrinted` | m_option.c:839-908 | printed suboptions read back if and only if there are some and the last is not blank |
| `Subconf.BadQuotes` | m_option.c:851-893 | a quote that is not closed, and text behind one that is, are refused |
| `Subconf.BadSizes` | m_option.c:851-893 | a size without its second percent sign, a negative one, one past the end, and text behind a value of the right size are refused |
| `Subconf.ParseRefused` | m_option.c:851-893 | a suboption that is refused makes the whole parameter invalid, whatever comes before it |
| `Subconf.CSpan` | bstr.c:76-83 | the length of the span up to a rejected character |
| `Subconf.OnePass` | m_option.c:851-893 | one pass of the loop; a negative length is refused because it is compared with an unsigned size |
| `Subconf.ParseSubconf` | m_option.c:839-908 | the pairs of the whole parameter, or what is wrong with it |
| `Bstr.GetLine` | bstr.c:189-197 | the first line with its newline, and the rest |
| `Bstr.LinesFlat` | bstr.c:189-197 | the lines make up the text |
| `Bstr.CountLines` | bstr.c:171-176 | as many lines as newlines, and one more if the text does not end in one |
| `Bstr.SplitLines` | bstr.c:167-187 | the places of the same lines that taking off one line after the other gives |
| `Bstr.CodeLength` | bstr.c:224-230 | the number of bytes a lead byte announces |
| `Common.Digits` | bstr.c:139-151 | the hexadecimal digits and their values, in either case |
| `Common.OnlyDigits` | bstr.c:139-151 | no other character is a digit, and which ones are space |
| `Bstr.DecodeUtf8` | bstr.c:232-254 | one code point and the bytes after it, or a negative number |
| `Bstr.DecodeFails` | bstr.c:232-254 | decoding fails exactly for no byte, a lead byte that announces nothing, too few bytes, or a byte that does not continue |
| `Bstr.DecodeValue` | bstr.c:232-254 | the value of each form, six bits from each byte behind the lead byte, most significant first |
| `Bstr.DecodeEncode` | bstr.c:232-254 | the encoding of a code point, followed by anything, decodes to it |
| `Bstr.EncodeDecode` | bstr.c:232-254 | what decodes is the encoding if and only if it is not longer than that |
| `Bstr.DecodeAll` | bstr.c:232-254 | decoding over and over gives back an encoded text and uses it up |

## Left out

- User destructors are foreign code, and taken to succeed without touching the heap.
- TallocApi.TallocFree: excludes several references to one chunk on an ownership cycle, because the code then makes a cycle, and frees that may go back through a released sibling; off plain heaps, such as with several references to one child from below others, that condition is sufficient but not exact.
- TallocHeap.Talloc.Free: in the middle of a cascade it asks for what `TallocApi.TallocFree` asks of the caller, so it excludes the same heaps.
- TallocWatched.FreeWatched: the exact condition is for plain heaps.
- TallocTheorems.ExactSurvival: needs a subtree without ownership cycles through it and without NULL references into it; with them `TallocTheorems.NoLeak` still says what cannot survive.
- TallocRuns.Perform: each call is made where it is legal on whatever heaps the earlier calls may leave; a reallocation that aborts the program leaves the heap as it is, and nothing is said about what then ends.
- TallocApi.Unlink: excludes owners inside the subtree of the chunk, which can never let go of it.
- TallocHeap.Talloc.Alloc: `malloc` is taken to find an unused address; names, the NULL context's tracking list, size reports and magic numbers are not modelled.
- TallocRealloc.Realloc: the system's `realloc` is taken to succeed, contents are not modelled, and chunks of pools are treated by `TallocPool` alone.
- TallocPool.Pool.Alloc: pools inside pools are not modelled.
- TallocPool.Pool.FreeMember: pools stand beside the heap of `TallocHeap`, whose chunks carry no pool flags, so that the end of a free calls it for a member is not part of the contract of `TallocHeap.Talloc.Release`.
- Config.MConfig.AddOption: options are registered at the first level, as the program does before it pushes.
- Config.MConfig.SetOption: option names are compared exactly, without case folding or trailing wildcards; modes in which an option is refused and the pre-parse rules are not modelled, and the parsers of the option types are a function.
- Profiles.Profiles.SetOption: options other than `profile` are recorded, not parsed; entries that use `include` read files and are not modelled.
- PlayTreeIter.PlayTreeIter.Step: the tree is cleaned up first, the root has no parent, a configuration is attached, and no group is shuffled (`Shuffle` steps through a shuffled root); steps within a list and past either end of a list with passes left are stated in both directions, but not which entry a backward step finds inside a group it enters or above one it leaves, because the code does not make that the mirror of the forward order.
- Shuffle.Shuffler.Step: the random number is any function into the range; the shuffled group is the root and its children are entries; a root that is played for ever has the contract of a step only.
- CommandLine.Builder.Parse: which arguments are options, the shuffle flag, playlist files, DVD title ranges and options that end the program are not part of this model.
- CommandLine.Builder.SetParam: an option for files is recorded, not checked.
- Template.Expand: properties are a function from names to texts, and printing one is taken to set its text; who frees a text is not modelled, and neither is an output longer than an `int`.
- LineReader.Reader.GetLine: running out of memory and buffers of two gigabytes are not modelled.
- StrList.ParseStrList: the operation is given instead of taken from the end of the option's name, and the reading of an index is a function.
- Bstr.DecodeUtf8: surrogates and code points above 0x10FFFF are decoded as the code decodes them; the bit operations are written as arithmetic.
- Decoding, demuxing, audio and video output, subtitles, configuration files and the playlist file formats are not part of this model.
