# Foldback strip heuristics (Ardour mixer), modelled in Dafny

Ardour's foldback strip (`gtk2_ardour/foldback_strip.cc`) is the mixer widget
for a foldback (monitor-mix) bus. Nearly all of it is GTK glue, but it holds a
few deterministic heuristics. This project models them over plain data and
proves what they promise:

- **Main-type guess** (`guess_main_type`). The strip guesses which signal type
  a route's outputs are meant to carry. It takes the most likely type among
  the connected ports. If none is connected, it takes the first type in
  iteration order that has ports. If there are no ports, it takes
  `DataType::front()`. `DataType` is `Audio < Midi < Nil`, and `Nil` is never
  the answer.
- **Output-button label** (`update_io_button`). A cascade picks a short label
  for the output button:
  - `-` when nothing of the main type is connected;
  - the first session route the outputs are exclusively connected to;
  - the first user bundle the outputs are exclusively connected to;
  - the physical outputs' short names joined with `/`;
  - a shared client name;
  - `*N*` with the total connection count.

  A `⊕` (U+2295) is appended when connections of other types exist too. The
  loops are modelled as methods, and each method is proved equal to a
  specification function. Lemmas then state what the cases mean. These
  include the duplicate and mismatch behaviour of the client-name case, and
  that splitting the physical label on `/` gives back its pieces.
- **Comment-button label** (`setup_comment_button`). The label is the first
  word of the route's comment. When the comment is empty or starts with a
  space, tab or newline it is `Comments`.
- **Output menu** (`output_press` and `maybe_add_bundle_to_output_menu`). The
  `FoldbackStrip` class keeps `output_menu_bundles` as a field. A bundle is
  appended only when all of these hold:
  - it is an input bundle;
  - it is not the route's own input;
  - it is not the monitor input, unless the route is the master;
  - it has the matching channel count;
  - no bundle with the same ports is already listed.

  The list never holds two bundles with the same ports. After the menu is
  built, every offerable candidate is represented in it.
- **Foldback-bus selection**. `build_route_select_menu` lists every foldback
  bus except the current one, in order. `remove_current_fb` moves the strip
  to the first other bus, or closes the strip when there is none. The proofs
  show that the successor is exactly the first entry of the select menu.

Engine and session queries are inputs to the model. They are: the routes and
bundles of the session, the physical outputs, the table of pretty port names,
and `Bundle::connected_to` (the `feeds` oracle).

Two behaviours of the code are kept as written and proved as lemmas:

- The route case asks whether our outputs are connected to the other route's
  **output** bundle (`(*route)->output()`), so `feeds` is applied to
  `Route.output`.
- In the client case, a port whose client differs from the guess is recorded
  before the loop stops. So a mismatch on the last port is not noticed
  (`ClientLabelAgreeing`, `ClientLabelLastMismatchExample`). Also, a
  connection with an empty client part leaves the guess empty, and the next
  port's client then becomes the guess (`ClientScanEmptyName`,
  `ClientLabelEmptyGuessExample`). When every main-typed connection has an
  empty client part, the guess never fills and the button label is empty
  (`ClientLabelAllEmptyExample`).

Two examples in the comment block above `update_io_button` (lines 843-851)
differ from what the code does, and the model follows the code. Case 2
connects the strip's outputs to track_x's *input* ports, but the route case
tests the route's output bundle (line 944). Case 3 labels two outputs both on
`program x:foo` as "program x", but the second connection is a duplicate, so
the client case gives no label (`ClientLabelDuplicateExample`).

Files: `types.dfy` (signal types, ports, bundles, routes), `text.dfy`
(`find`, `find_first_of`, joining, splitting, decimal output), `main_type.dfy`,
`output_button.dfy`, `comment_button.dfy`, `foldback_select.dfy`, and
`strip.dfy` (the `FoldbackStrip` class).

## Model

| member | source | states |
|---|---|---|
| Types.IterationFollowsRank | gtk2_ardour/foldback_strip.cc:796-797 | iteration visits the real types in ascending `<` order, never NIL, and front() is the first type iterated |
| Types.Rank | gtk2_ardour/foldback_strip.cc:812-814 | `<` on DataType ranks NIL last and strictly above every real type |
| Types.OfTypeMembers | gtk2_ardour/foldback_strip.cc:980-982 | the ports of one type are exactly the ports having that type |
| Types.PortCountSnoc | gtk2_ardour/foldback_strip.cc:826 | one more port adds one to the count of its own real type and nothing to the other |
| Types.PortCountPartition | gtk2_ardour/foldback_strip.cc:826 | the audio count, the MIDI count and the NIL-typed ports together account for every port exactly once |
| Text.FindFirstOf | gtk2_ardour/foldback_strip.cc:1109 | the index of the first character in the set, with none before it, or the length when none occurs |
| Text.IndexOfIsFirst | gtk2_ardour/foldback_strip.cc:991 | the first index where the pattern occurs, with no earlier occurrence; None (npos) when it never occurs |
| Text.JoinSnoc | gtk2_ardour/foldback_strip.cc:1002-1004 | after at least one piece, writing '/' and one more piece extends the joined text by exactly that |
| Text.SplitJoin | gtk2_ardour/foldback_strip.cc:1002-1004 | splitting a non-empty list of pieces, joined by a separator they do not contain, gives the pieces back |
| Text.NatToString | gtk2_ardour/foldback_strip.cc:1047 | the count is written as non-empty decimal digits with no leading zero, and they parse back to the count |
| MainType.LeastConnectedType | gtk2_ardour/foldback_strip.cc:811-816 | the result ranks at most every connected port's type and is NIL or the type of a connected port |
| MainType.FirstTypeWithPorts | gtk2_ardour/foldback_strip.cc:825-828 | the first type in iteration order that has a port, with no port of any earlier type; None when no listed type has ports |
| MainType.MainType | gtk2_ardour/foldback_strip.cc:787-832 | never NIL; when favoring connected ports and one is connected, the least connected type; otherwise Audio if present, else Midi if present; front() with no ports |
| MainType.GuessMainType | gtk2_ardour/foldback_strip.cc:811-831 | the two loops return exactly MainType |
| OutputButton.NoConnections | gtk2_ardour/foldback_strip.cc:929-936 | a connection count is zero exactly when no port is connected |
| OutputButton.TypedAtMostTotal | gtk2_ardour/foldback_strip.cc:921-924 | typed_connection_count never exceeds total_connection_count |
| OutputButton.DisconnectedExactly | gtk2_ardour/foldback_strip.cc:884-936 | with the guessed main type, no main-typed connection exists exactly when no port of a real type is connected |
| OutputButton.FirstRouteFedBy | gtk2_ardour/foldback_strip.cc:939-953 | the name of the first route, in session order, whose output bundle our outputs are connected to; None when there is none |
| OutputButton.FirstUserBundleFedBy | gtk2_ardour/foldback_strip.cc:956-970 | the name of the first user bundle our outputs are connected to, skipping non-user bundles; None when there is none |
| OutputButton.FirstConnectedPhysicalIsFirst | gtk2_ardour/foldback_strip.cc:984-988 | None exactly when the port reaches no physical output; otherwise the earliest physical output, in engine order, that the port is connected to |
| OutputButton.PhysicalLabelJoins | gtk2_ardour/foldback_strip.cc:980-1005 | the physical attempt fails exactly when there is no port or some port has no piece; otherwise it is the pieces joined by '/' |
| OutputButton.PhysicalEmptyPiece | gtk2_ardour/foldback_strip.cc:998-1001 | one port without a piece erases the whole attempt |
| OutputButton.AccumulateStep | gtk2_ardour/foldback_strip.cc:1002-1010 | after non-empty pieces, one more non-empty piece adds a '/' (but before the first piece) and then that piece |
| OutputButton.PhysicalLabelSplits | gtk2_ardour/foldback_strip.cc:1002-1004 | when the label is non-empty and no piece holds '/', the label has no leading '/' and splits back into the per-port pieces |
| OutputButton.PlaybackPiece | gtk2_ardour/foldback_strip.cc:989-994 | when c + "playback_" + n is the first physical output the port reaches, it has no pretty name, and c holds no "playback_" (not even one running into the "playback_" after it), the port is shown as n |
| OutputButton.ClientName | gtk2_ardour/foldback_strip.cc:1033 | the client part is the prefix before the first ':' (the whole name when there is none) |
| OutputButton.ClientScanRecordsPrefix | gtk2_ardour/foldback_strip.cc:1025-1031 | the loop records a prefix of the connections and never records one twice |
| OutputButton.ClientLabelDistinct | gtk2_ardour/foldback_strip.cc:1025-1042 | a client label is given only when the ports' connections are pairwise different |
| OutputButton.ClientScanAgreeing | gtk2_ardour/foldback_strip.cc:1031-1037 | with a guess made, distinct connections whose clients agree except perhaps the last are all recorded and keep the guess |
| OutputButton.ClientLabelAgreeing | gtk2_ardour/foldback_strip.cc:1015-1042 | when the first port's client is non-empty, distinct connections whose clients equal the first one's, except perhaps the last port's, give the first client as label |
| OutputButton.ClientLabelLastMismatchExample | gtk2_ardour/foldback_strip.cc:1031-1042 | outputs on "a:in" and "b:in" are labelled "a" |
| OutputButton.ClientScanEmptyName | gtk2_ardour/foldback_strip.cc:1031-1037 | a first connection with an empty client part leaves the guess empty, so the second connection's client becomes the guess |
| OutputButton.ClientLabelEmptyGuessExample | gtk2_ardour/foldback_strip.cc:1025-1042 | outputs on ":x" and "b:y" are labelled "b" |
| OutputButton.ClientScanMismatch | gtk2_ardour/foldback_strip.cc:1034-1037 | a client that differs from the guess before the last connection stops the loop short |
| OutputButton.ClientLabelMismatch | gtk2_ardour/foldback_strip.cc:1036-1042 | when the first port's client is non-empty, a differing client on any port but the first or last means no client label |
| OutputButton.ClientLabelAllEmptyExample | gtk2_ardour/foldback_strip.cc:1025-1042 | outputs on ":x" and ":y" get the empty string as client label |
| OutputButton.ClientLabelDuplicateExample | gtk2_ardour/foldback_strip.cc:1025-1030 | two outputs both on "program x:foo" get no client label, since the second connection is a duplicate |
| OutputButton.OutputLabel | gtk2_ardour/foldback_strip.cc:853-1052 | ends in ⊕ whenever total exceeds typed connections; with no real-typed connection the label is "-⊕" when other-typed connections exist and "-" otherwise |
| OutputButton.OddLabel | gtk2_ardour/foldback_strip.cc:1006-1052 | when some real-typed port is connected, no route or user bundle matches, and either not every main-typed port has one connection or both the physical and the client attempts fail, the label is "*", the total count, "*", then the suffix |
| OutputButton.RouteCase | gtk2_ardour/foldback_strip.cc:939-953 | when some real-typed port is connected and a route's output bundle is fed, the label is the first such route's name, then the suffix |
| OutputButton.BundleCase | gtk2_ardour/foldback_strip.cc:956-970 | when some real-typed port is connected, no route matches and a user bundle is fed, the label is the first such bundle's name, then the suffix |
| OutputButton.PhysicalCase | gtk2_ardour/foldback_strip.cc:973-1011 | when some real-typed port is connected, no route or user bundle matches, each main-typed port has one connection and the physical attempt succeeds, the label is the pieces joined by '/', then the suffix |
| OutputButton.ClientCase | gtk2_ardour/foldback_strip.cc:1015-1043 | when some real-typed port is connected, no route or user bundle matches, each main-typed port has one connection, the physical attempt fails and the client attempt succeeds, the label is the client name, then the suffix |
| OutputButton.CountConnections | gtk2_ardour/foldback_strip.cc:897-927 | the first loop computes the total and main-typed counts and whether each main-typed port has one connection |
| OutputButton.FindRouteFedBy | gtk2_ardour/foldback_strip.cc:939-953 | the route loop returns FirstRouteFedBy |
| OutputButton.FindUserBundleFedBy | gtk2_ardour/foldback_strip.cc:956-970 | the bundle loop returns FirstUserBundleFedBy |
| OutputButton.PhysicalPieceOf | gtk2_ardour/foldback_strip.cc:983-997 | the inner physical loop returns the port's piece |
| OutputButton.PhysicalAttempt | gtk2_ardour/foldback_strip.cc:973-1011 | the physical loop leaves exactly PhysicalLabel |
| OutputButton.ClientAttempt | gtk2_ardour/foldback_strip.cc:1015-1043 | the client loop succeeds exactly when ClientLabel does, with its client |
| OutputButton.UpdateIoButton | gtk2_ardour/foldback_strip.cc:874-1062 | the label built step by step equals OutputLabel |
| CommentButton.CommentLabel | gtk2_ardour/foldback_strip.cc:1095-1118 | never empty and free of separators; "Comments" when the comment is empty or starts with a separator; otherwise the text up to the first space, tab or newline |
| CommentButton.SingleWord | gtk2_ardour/foldback_strip.cc:1109-1116 | a one-word comment is shown whole |
| CommentButton.FirstWordOf | gtk2_ardour/foldback_strip.cc:1109-1116 | the label of word + separator + rest is word |
| FoldbackSelect.OtherFoldbacks | gtk2_ardour/foldback_strip.cc:1189-1196 | the listed buses are exactly the buses other than the current one |
| FoldbackSelect.OtherFoldbacksAppend | gtk2_ardour/foldback_strip.cc:1189-1196 | the filter keeps the order: it distributes over concatenation |
| FoldbackSelect.OtherFoldbacksCounts | gtk2_ardour/foldback_strip.cc:1189-1196 | each other bus keeps its multiplicity, the current one has none |
| FoldbackSelect.OnlyCurrent | gtk2_ardour/foldback_strip.cc:1536-1549 | a list holding only the current bus leaves no successor |
| FoldbackSelect.FirstOtherFoldback | gtk2_ardour/foldback_strip.cc:1536-1543 | the first entry that differs from the current bus heads the filtered list |
| FoldbackSelect.RouteSelectMenu | gtk2_ardour/foldback_strip.cc:1180-1198 | the menu offers exactly OtherFoldbacks, in order |
| FoldbackSelect.NextFoldback | gtk2_ardour/foldback_strip.cc:1533-1543 | the first bus that is not the current one, None only when every entry is current; equal to the select menu's first entry |
| Strip.SamePortsEquivalence | gtk2_ardour/foldback_strip.cc:728-733 | has_same_ports is reflexive, symmetric and transitive |
| Strip.OutputMenuCandidatesMembers | gtk2_ardour/foldback_strip.cc:631-656 | the bundles tried are the master input, the routes' inputs and the session's bundles |
| Strip.UserBundlesMembers | gtk2_ardour/foldback_strip.cc:644-656 | the user (or non-user) bundles of the session, and only those |
| Strip.FindSamePorts | gtk2_ardour/foldback_strip.cc:728-731 | the index of the first entry with the same ports, none before it, or the length |
| Strip.FoldbackStrip.MaybeAddBundleToOutputMenu | gtk2_ardour/foldback_strip.cc:701-741 | appends the bundle exactly when it passes every filter and no entry has its ports; otherwise the list is unchanged; no two entries share ports |
| Strip.MenuFromAppend | gtk2_ardour/foldback_strip.cc:629-656 | the candidates are tried in order: trying a and then b is trying a + b |
| Strip.MenuFromKeeps | gtk2_ardour/foldback_strip.cc:736-737 | entries are only appended, so the list before a candidate stays a prefix of the list after it |
| Strip.NoTwoSamePortsAdd | gtk2_ardour/foldback_strip.cc:726-737 | appending a bundle whose ports are not listed keeps every pair of entries apart |
| Strip.MenuFromFacts | gtk2_ardour/foldback_strip.cc:615-656 | the menu folded over the candidates has no two entries with the same ports, only offerable candidates, and an entry with the ports of every offerable candidate |
| Strip.MenuAddsExactly | gtk2_ardour/foldback_strip.cc:701-741 | a candidate is appended exactly when it is offerable and no earlier offerable candidate has its ports |
| Strip.FoldbackStrip.TryCandidates | gtk2_ardour/foldback_strip.cc:629-656 | the candidate loop leaves exactly the menu folded over the candidates, with no two entries sharing ports |
| Strip.FoldbackStrip.BuildOutputMenu | gtk2_ardour/foldback_strip.cc:615-656 | after clearing, the new list is exactly the menu folded over the candidates in order; each entry is an offerable candidate and each offerable candidate is represented; no two entries share ports |
| Strip.FoldbackStrip.RemoveCurrentFb | gtk2_ardour/foldback_strip.cc:1529-1551 | removes the old route; moves to the first other foldback bus, or closes exactly when there is none |

## Left out

- Tooltips: the output tooltip (lines 889-931) and the comment tooltip (line 1099) are widget text. So are the button style names, the menu item widgets, the separators, the "Add port" and "Routing Grid" entries, and the popups.
- `markup_escape_text`: it is applied to route and bundle names in the output label and is treated as identity. Gtkmm2ext is not part of this model.
- `_()`: the translation of "Comments" is not modelled. The English text is used.
- `FoldbackSend`: its gain, pan and LED syncing (lines 81-223) depend on floating-point control conversions that are not part of this model.
- Engine and session calls are inputs, not operations. These are `Bundle::connected_to`, `get_physical_outputs`, `get_pretty_name_by_name`, `get_routes`, `get_routelist`, `master_out`, `bundles()`, `get_stripables` and `monitor_out`. `Port::connected_to(name)`, `Port::connected()` and `get_connections` are modelled by each port's `connections` list: membership in it, and its being non-empty. `connected_to` for our output bundle, the main type and exclusive connections is the `feeds` function.
- `Bundle::has_same_ports` and `Bundle::operator==` are not part of this model. The first is taken to compare channel counts and per-channel port lists, the second to compare the channel lists.
- `RouteCompareByName`: route sorting in `output_press` is done by the caller, which passes the routes already sorted.
- The `current` bundle list passed to `maybe_add_bundle_to_output_menu` is unused by the source and is dropped.
- `remove_current_fb`: `set_route`, `clear_send_box`, `self_delete` and `Session::remove_route` are reduced to their effect on the strip. That is the new route, or "closed", plus the route to remove.
- `dynamic_pointer_cast<Route>` on foldback stripables is taken never to fail.
- `bundle_output_chosen`, `connect_to_pan`, `update_panner_choices`, `add_output_port` and the other menu actions only forward to engine objects.
- `guess_main_type`'s `for_input` flag is dropped. The model takes the IO's ports directly, and every caller in the file passes the outputs. `favor_connected` is taken as `true` where the file calls it with one argument: this is the header default, and the header is not part of this model.
- Strings are sequences of characters, not the UTF-8 bytes of `std::string`. So `find` and `substr` offsets count characters, and `⊕` is one character, not three bytes. The labels come out as the same text.
- `PortSet` groups ports by type. The model keeps one sequence per IO in PortSet order. The order within one type is what the label depends on.
- OutputButton.CountConnections: the `uint32_t` counters are unbounded, so wrap-around past 2^32 connections is not modelled.
- `libs/ardour/ardour/automation_control.h`: it holds declarations and thin forwards guarded by a lock, with no heuristic to model.
- GUI-thread dispatch (`ENSURE_GUI_THREAD`, idle callbacks) is handled by the host.
