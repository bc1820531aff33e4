# PathsList, modelled in Dafny

A model of `PathsList` from the Jenkins Custom Tools plugin. A `PathsList` says
where a tool's executables live. It holds an ordered list of path strings, an
optional home directory, an optional path-list separator (such as `:` or `;`)
and an optional directory separator (such as `/`). Callers build one, merge
other lists into it, and render it as a single string for a variable such as
`PATH`.

The model has three modules:

- `Wrappers` (`wrappers.dfy`): `Option`, standing for a Java reference that may be null.
- `Rendering` (`rendering.dfy`): `Terminated(ps, sep)`, the string made of every
  entry followed by `sep`, and the facts about it. These cover its length, its
  trailing separator, concatenation, the conventional join, and splitting it
  back into entries.
- `CustomTools` (`paths_list.dfy`): the class `PathsList`, whose fields are
  updated in place as in Java. `Snapshot` is the value of its four fields at
  one moment. `Merge` and `Render` are pure functions on snapshots that specify
  the class's methods. Further lemmas cover repeated merging and
  rendering after a merge.

Choices where the behaviour is open or the code differs from its own comments:

- **Absent path-list separator.** `toListString` appends a null separator with
  `StringBuilder.append`, which writes the four characters `null`. The model
  does the same (`NullText`). An empty string would be the other natural
  choice; the model follows the code.
- **Merge return value.** The method's own documentation
  (PathsList.java:77) says it returns true if the paths list has been
  modified, and a `TODO` at :79 asks whether the method is a bug. What :92
  returns is the result of the final `addAll`, which
  is true exactly when the other list's entries are non-empty. A merge that
  only appends the other list's home directory therefore returns false. The
  model follows the code (`AddList`, `HomeOnlyMergeGrows`).
- **Merging a list into itself.** In `x.add(x)` both lists are one object. The
  home directory, when present, is appended first. `ArrayList.addAll` then
  copies the list, now including that entry, before appending it. `AddList` models this case
  explicitly, using `Grown`.
- **Platform separators.** The two-argument constructor reads
  `File.pathSeparator` and `File.separator` from the running JVM.
  `WithPlatformSeparators` takes those two strings as parameters instead.

## Model

| member | source | states |
|---|---|---|
| `CustomTools.PathsList.constructor` | src/main/java/com/synopsys/arc/jenkinsci/plugins/customtools/PathsList.java:57-64 | the new list holds exactly the given entries, in order, and the given home directory, path-list separator and directory separator |
| `CustomTools.PathsList.Empty` | src/main/java/com/synopsys/arc/jenkinsci/plugins/customtools/PathsList.java:53-55 | the new list has no entries; home directory and both separators are absent |
| `CustomTools.PathsList.WithPlatformSeparators` | src/main/java/com/synopsys/arc/jenkinsci/plugins/customtools/PathsList.java:46-48 | the new list holds the given entries and home directory; both separators are present and equal to the platform values passed in |
| `CustomTools.PathsList.GetHomeDir` | src/main/java/com/synopsys/arc/jenkinsci/plugins/customtools/PathsList.java:66-68 | returns the list's home directory, absent when none is recorded |
| `CustomTools.PathsList.Add` | src/main/java/com/synopsys/arc/jenkinsci/plugins/customtools/PathsList.java:70-72 | the entries become the old entries plus the new path at the end; no other field changes; the result is always true |
| `CustomTools.PathsList.AddList` | src/main/java/com/synopsys/arc/jenkinsci/plugins/customtools/PathsList.java:80-93 | for a distinct other list: the new state is `Merge` of the old states, the other list is unchanged, and the result is true iff the other list's entries are non-empty; for a merge with itself: the new state is `Merge` with the grown list, and the result is true iff the grown entries are non-empty |
| `CustomTools.PathsList.ToListString` | src/main/java/com/synopsys/arc/jenkinsci/plugins/customtools/PathsList.java:99-110 | the string the loop builds is `Render` of the current state |
| `CustomTools.MergeFields` | src/main/java/com/synopsys/arc/jenkinsci/plugins/customtools/PathsList.java:80-93 | `Merge` keeps the home directory; a present separator is kept, an absent one becomes the other list's; entries are the old entries, then the other home directory (when present), then the other entries |
| `CustomTools.Render` | src/main/java/com/synopsys/arc/jenkinsci/plugins/customtools/PathsList.java:99-110 | absent iff there are no entries, whatever the other fields hold; otherwise the conventional join plus one trailing separator, whose length is the entries' total plus one separator per entry; an absent separator is written `null` |
| `CustomTools.RenderMerged` | src/main/java/com/synopsys/arc/jenkinsci/plugins/customtools/PathsList.java:80-110 | rendering a merged list gives the rendering of the old entries, then of the other home directory, then of the other entries, all with the merged separator |
| `CustomTools.SelfMergeDoubles` | src/main/java/com/synopsys/arc/jenkinsci/plugins/customtools/PathsList.java:88-92 | merging a list into itself leaves the separators and home directory alone and repeats the entries, home directory included, twice |
| `CustomTools.HomeOnlyMergeGrows` | src/main/java/com/synopsys/arc/jenkinsci/plugins/customtools/PathsList.java:88-92 | merging any list whose entries are empty but whose home directory is present appends exactly that directory, so the entries grow by one; `AddList`'s ensures give `false` as the result of that same merge |
| `CustomTools.MergeAllFields` | src/main/java/com/synopsys/arc/jenkinsci/plugins/customtools/PathsList.java:81-86 | after a series of merges each separator is the first one present in merge order, and the home directory is the original one |
| `CustomTools.MergeAllPaths` | src/main/java/com/synopsys/arc/jenkinsci/plugins/customtools/PathsList.java:88-92 | after a series of merges the entries are the original ones followed by each merged list's home directory and entries, in merge order |
| `CustomTools.FirstPresentStep` | src/main/java/com/synopsys/arc/jenkinsci/plugins/customtools/PathsList.java:81-86 | one merge step fixes a separator already present and otherwise defers to the next list |
| `Rendering.TerminatedAppend` | src/main/java/com/synopsys/arc/jenkinsci/plugins/customtools/PathsList.java:104-109 | the rendering of two concatenated entry lists is the concatenation of their renderings |
| `Rendering.TerminatedSnoc` | src/main/java/com/synopsys/arc/jenkinsci/plugins/customtools/PathsList.java:105-108 | one more loop iteration appends the entry and then the separator |
| `Rendering.TerminatedLength` | src/main/java/com/synopsys/arc/jenkinsci/plugins/customtools/PathsList.java:104-109 | the rendering's length is the sum of the entry lengths plus one separator per entry |
| `Rendering.TerminatedEndsWithSeparator` | src/main/java/com/synopsys/arc/jenkinsci/plugins/customtools/PathsList.java:104-109 | a rendering of at least one entry ends with the separator |
| `Rendering.TerminatedIsJoinedPlusSeparator` | src/main/java/com/synopsys/arc/jenkinsci/plugins/customtools/PathsList.java:104-109 | a rendering of at least one entry equals the conventional join with the separator between entries, plus one trailing separator |
| `Rendering.FieldsOfTerminated` | src/main/java/com/synopsys/arc/jenkinsci/plugins/customtools/PathsList.java:104-109 | with a one-character separator that occurs in no entry, splitting the rendering at that character gives back exactly the entries |

## Left out

- The static `EMPTY` constant is not modelled. It is a shared mutable object built by the two-argument constructor, so its separators come from the platform. `WithPlatformSeparators([], None, <platform path separator>, <platform separator>)` builds an equivalent value. `Empty()` does not: its separators are absent, so merging it fills nothing, while merging `EMPTY` fills absent separators with the platform values.
- The platform defaults `File.pathSeparator` and `File.separator` are not read. They come from the running JVM, so the caller passes them in.
- Java serialization and the `@NonNull`/`@CheckForNull` annotations are left out; they are metadata. Nullable fields are `Option`s. Non-null parameters are non-optional Dafny values.
- Null elements inside the path list are not modelled. An entry is always a string.
- The public `paths` field could be reassigned by callers to share one Java list between two objects. The model holds entries as a value, so only the self-merge aliasing of `add(PathsList)` is represented.
- `ArrayList` versus `LinkedList` is not modelled; only the order of entries is observable.
- Concurrent use is not modelled; the class has no synchronization.
- `Rendering.FieldsOfTerminated` is a property of the rendering, not a function of this class. Splitting an environment variable happens in callers, which are not part of this model.
