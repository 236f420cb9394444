# GATT attribute-tree builder (bluster), modelled in Dafny

This project models how the bluster crate builds a GATT service. A
`ServiceBuilder` holds a service uuid, a `primary` flag and a set of
characteristic builders. A `Characteristic` builder holds a uuid and two `Properties`
records: one for the characteristic and one for its descriptor. Each record is a
flag set plus optional read and write event channels. Characteristics are
added to a service through the generic `ChainedBuilder`. It pairs the new
child builder with its parent. While configuration lasts, it stands in for the
child (`Deref`/`DerefMut`). `complete_chain` then hands the child to the
parent's `ConsumeBuilder::consume`.

Files and modules:

- `wrappers.dfy`, module `Wrappers`: `Option`.
- `gatt_properties.dfy`, module `GattProperties`: the stored values. These are
  `Uuid`, `PropertyFlags`, `EventSender` (the sending side of a channel),
  `Properties` and `Properties::default()`.
- `common.dfy`, module `Common`: `ChainedBuilder` and the generic chain
  property (src/common.rs).
- `service.dfy`, module `GattService`: `_Service`, `Service`,
  `ServiceBuilder`, `Characteristic` and their properties
  (src/gatt/service.rs).

Modelling choices:

- The characteristic set is a `HashSet<Characteristic>` whose equality and hash
  look only at the uuid. It is represented as a map from uuid to the
  characteristic stored under it. The subset type `CharacteristicSet` keeps
  every entry stored under its own uuid. `ConsumeIsHashSetInsert` and
  `ConsumeAllIsHashSetInsertAll` prove that this map behaves as `HashSet::insert`
  does on a set of values compared by uuid.
- `ConsumeBuilder` is a trait. In this model, `consume` is a function parameter
  `(R, B) -> R` of `ChainedBuilder.CompleteChain`. So the chain's properties
  hold for every parent type and every `consume`. `ServiceBuilder` passes its own
  `consume` (`ConsumeCharacteristic`).
- One result follows from that choice. Parent and child builders are values:
  `Characteristic` and `ServiceBuilder` are datatypes. Each `&mut self` setter
  and the by-value `consume(mut self, …) -> Self` is a function that returns the
  updated value. In-place change is modelled where the source borrows into the
  chain. `ChainedBuilder` is a class, and `DerefMut` changes its `builder` field
  and nothing else.
- `set_descriptor_flags` is modelled as written: it stores the flags in the
  characteristic's properties (src/gatt/service.rs:102-105). Three lemmas state
  the consequences:
  - it is the same operation as `set_characteristic_flags`;
  - no setter changes the descriptor's flags;
  - the descriptor's flags stay empty after any chain of setter calls.
- A duplicate uuid is silently ignored. `consume` returns `Self`, not a
  `Result`, and `HashSet::insert` keeps the element already present. The code
  therefore has no error for a duplicate uuid, and the model follows the code.
- `build` returns only the uuid and the `primary` flag. The characteristics are
  not carried into `Service`.

## Model

| member | source | states |
|---|---|---|
| `GattService.ServiceNode.New` | src/gatt/service.rs:18-25 | `_Service::new` keeps exactly the given uuid, primary flag and characteristic set |
| `GattService.Characteristic.New` | src/gatt/service.rs:107-113 | a new characteristic builder has the given uuid and default properties (no flags, no channels) at both the characteristic and the descriptor level |
| `GattService.Characteristic.SetCharacteristicRead` | src/gatt/service.rs:77-80 | the characteristic's read channel becomes `Some(sender)`; its write channel and flags, the descriptor's properties and the uuid are unchanged |
| `GattService.Characteristic.SetCharacteristicWrite` | src/gatt/service.rs:82-85 | the characteristic's write channel becomes `Some(sender)`; everything else is unchanged |
| `GattService.Characteristic.SetCharacteristicFlags` | src/gatt/service.rs:87-90 | the characteristic's flags become `flags`; everything else is unchanged |
| `GattService.Characteristic.SetDescriptorRead` | src/gatt/service.rs:92-95 | the descriptor's read channel becomes `Some(sender)`; the characteristic's properties, the descriptor's write channel and flags, and the uuid are unchanged |
| `GattService.Characteristic.SetDescriptorWrite` | src/gatt/service.rs:97-100 | the descriptor's write channel becomes `Some(sender)`; everything else is unchanged |
| `GattService.Characteristic.SetDescriptorFlags` | src/gatt/service.rs:102-105 | as written: the CHARACTERISTIC's flags become `flags`, and the descriptor's properties are left entirely unchanged |
| `GattService.Characteristic.UuidEq` | src/gatt/service.rs:73 | two characteristics are equal (and hash alike) exactly when their uuids are, whatever their properties: equal exactly when they coincide once their properties are made the same |
| `GattService.SettersIdempotent` | src/gatt/service.rs:77-105 | repeating any setter with the same argument changes nothing |
| `GattService.SetterLastCallWins` | src/gatt/service.rs:77-105 | two calls that overwrite the same field leave only the second call's argument |
| `GattService.SettersCommute` | src/gatt/service.rs:77-105 | calls that overwrite different fields can be made in either order |
| `GattService.NoSetterTargetsDescriptorFlags` | src/gatt/service.rs:77-105 | every setter, `set_descriptor_flags` included, leaves the descriptor's flags as they were |
| `GattService.SetDescriptorFlagsIsCharacteristicFlags` | src/gatt/service.rs:87-105 | `set_descriptor_flags(f)` is the same as `set_characteristic_flags(f)`: it never changes the descriptor's flags, and it does change the builder whenever `f` differs from the characteristic's flags |
| `GattService.SettersKeepUuidAndDescriptorFlags` | src/gatt/service.rs:67-113 | no chain of setter calls changes the uuid (so the characteristic stays equal to itself under uuid equality) or the descriptor's flags; from `Characteristic::new`, the descriptor's flags stay empty |
| `GattService.ServiceBuilder.New` | src/gatt/service.rs:40-46 | the builder has exactly the given uuid and primary flag and an empty characteristic set |
| `GattService.ServiceBuilder.NewCharacteristic` | src/gatt/service.rs:48-50 | returns a new chain whose child is `Characteristic::new(uuid)` and whose parent is this builder, unchanged |
| `GattService.ServiceBuilder.Build` | src/gatt/service.rs:52-57 | the built service carries the builder's uuid and primary flag |
| `GattService.BuildIgnoresCharacteristics` | src/gatt/service.rs:52-64 | two builders build the same service if and only if their uuid and primary flag agree; consuming a characteristic never changes what `build` returns |
| `GattService.ServiceBuilder.Consume` | src/gatt/service.rs:61-64 | keeps uuid and primary; the uuid set becomes the old one plus the target's uuid; existing elements are kept; for a new uuid the set grows by one and holds the target; for a present uuid the builder is returned unchanged |
| `GattService.ConsumeSecondIgnoredIff` | src/gatt/service.rs:61-73 | after consuming `a`, consuming `b` changes nothing if and only if `b` equals `a` by uuid or `b`'s uuid was already present |
| `GattService.ConsumeCommutes` | src/gatt/service.rs:61-73 | consuming two characteristics with different uuids gives the same builder in either order |
| `GattService.ConsumeAllUuids` | src/gatt/service.rs:61-64 | consuming a sequence keeps uuid and primary and adds exactly the sequence's uuids to the uuid set |
| `GattService.ConsumeAllFromNew` | src/gatt/service.rs:40-64 | from `ServiceBuilder::new(u, p)`, consuming a sequence gives uuid `u`, primary `p`, uuid set equal to the sequence's uuids, and size equal to the number of distinct uuids in the sequence |
| `GattService.ConsumeAllKeepsPresent` | src/gatt/service.rs:61-64 | a characteristic already in the set is never replaced by characteristics consumed later |
| `GattService.ConsumeAllKeepsFirst` | src/gatt/service.rs:61-64 | for a uuid new to the builder, the set keeps the FIRST characteristic in the sequence that carries it |
| `GattService.ElementsAreHashSet` | src/gatt/service.rs:36 | the elements of a characteristic set are pairwise unequal by uuid, and there are as many as there are uuids |
| `GattService.ConsumeIsHashSetInsert` | src/gatt/service.rs:61-73 | consume on the map equals `HashSet::insert` under uuid equality on its elements: unchanged if an equal element is present, otherwise the target is added |
| `GattService.ConsumeAllIsHashSetInsertAll` | src/gatt/service.rs:61-73 | consuming a sequence equals inserting its elements into the hash set one by one, and the result never holds two elements equal by uuid |
| `GattService.ChainEach` | src/gatt/service.rs:48-64 | a run of `new_characteristic(u)` chains, each with its setter calls made through the chain and then completed, gives exactly the builder that consuming the configured characteristics in order gives (so `ConsumeAllFromNew` and `ConsumeAllKeepsFirst` apply to chain-built services) |
| `GattService.SingleCharacteristicService` | src/gatt/service.rs:40-64 | `ServiceBuilder::new(u, p).new_characteristic(c).complete_chain()` has uuid `u`, primary `p`, uuid set `{c}` and the default characteristic for `c` |
| `GattService.ConfiguredCharacteristicService` | src/gatt/service.rs:48-90 | the same chain with `set_characteristic_flags(f)` and `set_characteristic_read(s)` called through the chain consumes exactly the characteristic `c` with flags `f`, read channel `s`, no write channel and default descriptor properties |
| `Common.ChainedBuilder.constructor` | src/common.rs:19-24 | `ChainedBuilder::new(b, r)` stores `b` as the child and `r` as the parent, unchanged |
| `Common.ChainedBuilder.Deref` | src/common.rs:36-38 | `deref` yields the child builder |
| `Common.ChainedBuilder.DerefMut` | src/common.rs:44-46 | a change made through `deref_mut` applies to the child only; the parent is unchanged |
| `Common.ChainedBuilder.CompleteChain` | src/common.rs:26-28 | `complete_chain` returns exactly `consume(parent, child)` |
| `Common.CompleteAfterEdit` | src/common.rs:19-46 | for every parent type and every `consume`, completing a chain whose child was edited through `deref_mut` gives `consume(original parent, edited child)` |

## Left out

- src/bluez/mod.rs, src/bluez/mgmt.rs, src/peripheral.rs and src/lib.rs are not part of this model. They hold D-Bus and socket I/O, async plumbing, property marker types and module declarations.
- The files that define `Properties`, `PropertyFlags`, `Event`/`EventSender`, `impl_uuid_hash_eq!` and the other `characteristic::Characteristic` are not part of this model. `Properties::default()` is ASSUMED to be "no flags, no channels": src/gatt/service.rs:110-111 shows only that a default exists, not what it holds. The last ensures of `GattService.SettersKeepUuidAndDescriptorFlags` (the descriptor's flags stay empty) rests on this assumption. Flags are kept as an uninterpreted bit pattern. Senders are tokens naming a channel. `_Service` takes the characteristic type as a parameter.
- Event channels: sending, backpressure, ordering and responses are not modelled. The builder only stores senders.
- Object-path assignment, tree export and registration have no code in the modelled files.
- `HashSet` iteration order is unspecified, so the set is a map keyed by uuid.
- GattService.Characteristic.SetCharacteristicRead: this setter and the other five are functions that return the updated characteristic, not in-place updates through `&mut self`. Their `&mut Self` return, used for call chaining, is that updated value. A `&mut` borrow is unique, so no aliasing is lost. Change through the chain is modelled in place by `Common.ChainedBuilder.DerefMut`.
- GattService.ServiceBuilder.Consume: it takes `mut self` by value and returns `Self`. It is modelled as a function on the builder value rather than as an in-place update of a `ServiceBuilder` object. That is what lets it serve as the chain's `consume` parameter.
- Common.ChainedBuilder.CompleteChain: it consumes `self` in the source. The Dafny object stays allocated, and the model does not forbid using a chain after completing it.
- Common.ChainedBuilder.DerefMut: the mutable borrow it returns is modelled by the change made through it, given as a function on the child (`edit`).
