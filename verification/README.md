# Methods provider of appledoc, modelled in Dafny

appledoc's `GBMethodsProvider` is the registry that every documented class,
category and protocol uses to hold its methods. It is bound to a parent
object. It keeps three things:

- an ordered list of named sections, each with an ordered list of methods;
- a flat list of all methods in registration order;
- a selector → method index.

A method is registered into the section that was registered last. If no
section exists yet, an unnamed default section is created first.
Registering the same method instance again does nothing. Registering a
different instance whose selector is already taken is an error. Lookup is
by selector. A provider can merge another provider's methods into itself.

The model is functional. A provider is an immutable value. Every operation
returns a new provider, or an error where the Objective-C code throws.

- `Wrappers`: `Option` (Objective-C's `nil`) and `Result` (the exceptions
  `GBMethodsProvider` throws).
- `MethodData`: the method record `Method(id, selector, parent, content)`.
  `id` stands for object identity and `content` is opaque. The module also
  has the `Section` record and the sequence helpers: flattening sections,
  and the sets of identities, selectors and (identity, selector) pairs.
- `MethodsProvider`: the provider and its invariant `Valid`, construction,
  section registration, method registration and lookup.
- `ProviderMerge`: the merge and its closed-form description. The
  description uses `AbsorbAll` (each receiver method absorbs the source
  methods that have its selector) and `Unknown` (the source methods the
  receiver did not know, in order).
- `MergeAssociativity`: merging three providers in either grouping, and
  the list facts about `AbsorbAll` and `Unknown` that this needs.
- `RegistrationRuns`: sequences of registrations and what they leave
  registered.
- `ProviderScenarios`: short registration sequences (a section then a method,
  on any valid provider and on a fresh one) and concrete registrations and merges.

`Valid` is the provider's invariant. It says:

- the flat list is the sections' lists concatenated;
- identities and selectors are each registered once;
- every method carries the provider's parent;
- the index holds exactly the registered selectors, each mapped to its
  method.

Every operation preserves it.

The implementation file of the provider is not part of this model. The
model follows the contracts that the header's documentation comments
state.

## Model

| member | source | states |
|---|---|---|
| MethodsProvider.New | Model/GBMethodsProvider.h:32-40 | Construction fails with `NilParent` exactly when the parent is absent. Otherwise the provider is valid, bound to that parent, and has no sections, methods or index entries. |
| MethodsProvider.RegisterSectionWithName | Model/GBMethodsProvider.h:46-57 | Appends exactly one new section with the given name and no methods, even when the name repeats. Earlier sections, methods, index and parent are unchanged and validity is kept. The warning flag is set exactly when a section of that name or the default unnamed section already exists. |
| MethodsProvider.SectionReceivesNextMethod | Model/GBMethodsProvider.h:48-50 | A new method registered right after a section goes into that section. Registration succeeds and the sections become the old ones plus the named section holding just that method. |
| MethodsProvider.RegisterSectionIfNameIsValid | Model/GBMethodsProvider.h:59-68 | Returns none exactly when the name is absent or empty, and then the provider is left as it was. Otherwise it gives exactly what `RegisterSectionWithName` gives. |
| MethodsProvider.RegisterMethod | Model/GBMethodsProvider.h:84-96 | Re-registering an instance that is already registered returns the provider unchanged. It fails with `DuplicateSelector` exactly when a different instance holds the selector. Otherwise the method is appended, with the provider's parent, to the flat list and to the last section. A default unnamed section is created first when there is none. Everything else is unchanged and validity is kept. |
| MethodsProvider.InsertKeepsValid | Model/GBMethodsProvider.h:84-86 | Adding an unregistered instance with an unused selector keeps every part of the invariant. |
| MethodsProvider.MethodBySelector | Model/GBMethodsProvider.h:98-107 | On a valid provider, lookup finds a method exactly when the selector is present, non-empty and registered. What it finds is a registered method carrying that selector. |
| MethodsProvider.LookupFindsRegistered | Model/GBMethodsProvider.h:98-110 | Every registered method with a non-empty selector is what lookup by that selector returns. |
| MethodsProvider.RegisterThenLookup | Model/GBMethodsProvider.h:84-107 | After registering a new method, lookup by its selector returns it, attached to the provider's parent. |
| RegistrationRuns.Run | Model/GBMethodsProvider.h:84-96 | A run of section and method registrations keeps the parent and validity. It fails only with the duplicate-selector error. |
| RegistrationRuns.RunRegistersOffered | Model/GBMethodsProvider.h:84-110 | A successful run leaves registered exactly the instances that were already there plus the instances it offered. |
| RegistrationRuns.RunCountsInstances | Model/GBMethodsProvider.h:84-110 | After a successful run, the flat list is as long as the number of distinct instances registered. |
| RegistrationRuns.FreshProviderCountsInstances | Model/GBMethodsProvider.h:84-110 | A provider built from nothing holds one method per distinct instance offered, however often each was offered. |
| ProviderMerge.ReplaceContent | Model/GBMethodsProvider.h:116-118 | Merging data into the method registered under a selector keeps the parent, the number, names and lengths of the sections and the length of the flat list. In every section and in the flat list, each method keeps its position, identity, selector and parent. The instance registered under that selector gets the new content; every other method is unchanged. The index keeps its keys, and only that selector's entry changes, and only in content. |
| ProviderMerge.ReplaceContentKeepsValid | Model/GBMethodsProvider.h:116-118 | On a valid provider, merging data into the method registered under a selector keeps the invariant. The flat list changes in exactly one position, the one holding that selector, and only in content. |
| ProviderMerge.MergeOne | Model/GBMethodsProvider.h:116-118 | One source method's effect keeps the parent, validity and the section layout. Sections keep their names and order. Every method stays in its section and position, with at most new content. Only the last section may gain methods. At most the default section is added, and only to a provider that had no section. |
| ProviderMerge.MergeOneShape | Model/GBMethodsProvider.h:116-118 | A source method whose selector the receiver knows is absorbed in place by the receiver's method with that selector. Any other source method is appended, attached to the receiver's parent. |
| ProviderMerge.MergeMethods | Model/GBMethodsProvider.h:116-122 | Merging a sequence of source methods keeps the parent, validity and the section layout: names, order, each method's section and position, and growth only in the last section. |
| ProviderMerge.MergeSelectors | Model/GBMethodsProvider.h:116-122 | After a merge the receiver's selectors are exactly its own plus the source's. No identity gains a new selector. |
| ProviderMerge.MergeShape | Model/GBMethodsProvider.h:116-122 | After a merge the receiver's flat list is its old methods in their old places, each having absorbed, in source order, the source methods with its selector. These are followed by the source methods it did not know, in source order, attached to the receiver's parent. |
| ProviderMerge.MergeKeepsReceiverMethods | Model/GBMethodsProvider.h:116-120 | After a merge the receiver's own methods open its flat list in their old order. Each is the same instance, with the same selector and parent, and only its content may have changed. |
| ProviderMerge.MergeDataFromMethodsProvider | Model/GBMethodsProvider.h:116-122 | Merge keeps the receiver's parent and validity. It keeps the section layout: every existing method stays in its own section and position, and only the last section grows. It registers every source selector and adds nothing else. It gives the position-by-position result of `MergeShape`. The source is a separate value, so the merge cannot alter it. |
| ProviderMerge.MergeRegistersSource | Model/GBMethodsProvider.h:116-122 | After a merge, lookup in the receiver finds every non-empty source selector. |
| ProviderMerge.MergeThenMergeSelectors | Model/GBMethodsProvider.h:116-122 | Merging B and then C into A registers exactly the union of the three selector sets. |
| ProviderMerge.MergeOfMergeSelectors | Model/GBMethodsProvider.h:116-122 | Merging into A the merge of C into B registers exactly the union of the three selector sets. |
| ProviderMerge.MergeAssociativeOnSelectors | Model/GBMethodsProvider.h:116-122 | Merging B and then C into A registers the same selectors as merging into A the merge of C into B. In both cases that is the union of the three selector sets. |
| MergeAssociativity.MergeThenMerge | Model/GBMethodsProvider.h:116-122 | When B and C share no selector, merging B and then C into A gives this flat list: A's methods absorb B's and then C's data in place. They are followed by B's methods that A did not know, and then by C's methods that neither A nor B knew, all attached to A's parent. |
| MergeAssociativity.MergeOfMerge | Model/GBMethodsProvider.h:116-122 | When B and C share no selector, merging into A the merge of C into B gives the same flat list as `MergeThenMerge` describes. |
| MergeAssociativity.MergeAssociative | Model/GBMethodsProvider.h:116-122 | When B and C share no selector, the two groupings of merging B and C into A give equal flat lists, for any per-method merge. |
| ProviderScenarios.SectionThenMethod | Model/GBMethodsProvider.h:46-57 | On a valid provider, a section followed by an unregistered method with an unused selector succeeds. The sections become the old ones plus that section holding just the method, the flat list gains the method, and the identities and index keys each gain exactly its own. |
| ProviderScenarios.FirstSectionAndMethod | Model/GBMethodsProvider.h:32-57 | A freshly constructed provider given a section and then a method holds exactly that one section with that one method, and nothing else. |
| ProviderScenarios.DefaultSectionScenario | Model/GBMethodsProvider.h:50 | A method registered before any section lands in a single unnamed section. |
| ProviderScenarios.ReRegistrationScenario | Model/GBMethodsProvider.h:86-91 | The same instance twice leaves the provider unchanged. Another instance with the same selector is refused with `DuplicateSelector`. |
| ProviderScenarios.RicherDuplicateScenario | Model/GBMethodsProvider.h:116-122 | Suppose the receiver and the source each hold a different instance of `foo`. After the merge the receiver still holds one `foo`, with both contents merged, and the source still holds its own. |

## Left out

- The implementation file of the provider is not part of this model.
  Behaviour follows the header's documentation:
  - During a merge, a method the receiver does not know is registered
    through `RegisterMethod`. So it lands in the receiver's current (last)
    section, or in a new default section. It is not placed in a section
    chosen by matching the source section's name, because the header
    promises no such correlation.
  - A merge has no special case for merging a provider into itself.
- Log output is not modelled. The duplicate-section warning is only the
  `warned` flag of `SectionRegistration`, and it never affects state.
- `GBMethodData` beyond identity, selector, parent and content is not
  modelled. Its own merge (`mergeDataFromObject:`) is the parameter
  `merge: (C, C) -> C`.
- Objective-C object identity is modelled by the `id` number. The merge
  promises that mention selectors assume `IdentityConsistent`: one
  instance never carries two selectors. Real objects satisfy this by
  being themselves.
- A `nil` method passed to registration is not modelled. A method record
  is always present.
- Sections are values. The section that registration returns is a
  snapshot. Later methods are added to the provider's copy, not to the
  returned value.
- Memory management, `NSObject` plumbing and exceptions as control flow
  are replaced by values and `Result`.
- Concurrency does not arise. The provider is single-threaded.
- MethodsProvider.MethodBySelector: a method whose selector is the empty
  string can be registered but is never found by lookup. This follows the
  header's rule that an empty selector finds nothing.
- ProviderMerge.MergeShape: the closed form is proved only for a source
  whose selectors are unique, which every valid provider satisfies.
- ProviderMerge.MergeAssociativeOnSelectors: for arbitrary providers only
  the registered selectors are shown to agree. When B and C share a
  selector that A also has, A's method ends up as `merge(merge(x, b), c)` in
  one grouping and `merge(x, merge(b, c))` in the other. These differ unless
  the per-method merge is itself associative. When B and C share no selector,
  `MergeAssociativity.MergeAssociative` proves the flat lists equal.
- ProviderMerge.MergeDataFromMethodsProvider: a newly copied method goes
  into the receiver's last section, or into a new default section. The
  header does not say which section receives it, and the contract promises
  only that old methods keep their sections and positions.
- ProviderMerge.MergeDataFromMethodsProvider: methods are values, not shared
  objects. A method copied into the receiver keeps the source's `id` but is
  a separate value: it is attached to the receiver's parent, while the
  source's copy keeps the source's parent. In Objective-C one instance would
  be shared, and attaching it to the receiver's parent would also change it
  in the source. Later changes to either copy are likewise not reflected in
  the other.
