/**
 * The GATT service builder: a service uuid, a primary flag and the set of
 * characteristic builders consumed so far; and the characteristic builder,
 * whose fluent setters fill in the characteristic's and its descriptor's
 * `Properties`.
 *
 * Characteristics are equal exactly when their uuids are, so the builder's
 * `HashSet<Characteristic>` holds at most one characteristic per uuid. It is
 * represented as a map from each uuid to the characteristic stored under it;
 * the lemmas in the last part of this module show that the map behaves as
 * that hash set does.
 */
module GattService {
  import opened Wrappers
  import opened GattProperties
  import opened Common

  /**
   * `_Service`: a finished service together with its characteristics. The
   * characteristic type it holds is defined in a file outside this model, so
   * it is a type parameter here.
   */
  datatype ServiceNode<C> = ServiceNode(uuid: Uuid, primary: bool, characteristics: set<C>)
  {
    /** `_Service::new`: stores the three given values. */
    static function New(uuid: Uuid, primary: bool, characteristics: set<C>): (s: ServiceNode<C>)
      ensures s.uuid == uuid && s.primary == primary && s.characteristics == characteristics
    {
      ServiceNode(uuid, primary, characteristics)
    }
  }

  /** `Service`, what `ServiceBuilder::build` returns: a uuid and the primary flag only. */
  datatype Service = Service(uuid: Uuid, primary: bool)

  /*
   * The characteristic builder
   */

  /** The builder-side `Characteristic`. */
  datatype Characteristic = Characteristic(uuid: Uuid, characteristicProperties: Properties, descriptorProperties: Properties)
  {
    /** `Characteristic::new`: the given uuid and default properties on both levels. */
    static function New(uuid: Uuid): (c: Characteristic)
      ensures c.uuid == uuid
      ensures c.characteristicProperties == DefaultProperties
      ensures c.descriptorProperties == DefaultProperties
    {
      Characteristic(uuid, DefaultProperties, DefaultProperties)
    }

    /** Equality as `impl_uuid_hash_eq!` defines it (and hashing agrees): by uuid alone. */
    predicate UuidEq(other: Characteristic): (r: bool)
      ensures r <==> this.(characteristicProperties := other.characteristicProperties,
                           descriptorProperties := other.descriptorProperties) == other
    {
      uuid == other.uuid
    }

    /** `set_characteristic_read`: attaches the characteristic's read channel. */
    function SetCharacteristicRead(sender: EventSender): (c: Characteristic)
      ensures c.characteristicProperties.read == Some(sender)
      ensures c.characteristicProperties.write == characteristicProperties.write
      ensures c.characteristicProperties.flags == characteristicProperties.flags
      ensures c.descriptorProperties == descriptorProperties && c.uuid == uuid
    {
      this.(characteristicProperties := characteristicProperties.(read := Some(sender)))
    }

    /** `set_characteristic_write`: attaches the characteristic's write channel. */
    function SetCharacteristicWrite(sender: EventSender): (c: Characteristic)
      ensures c.characteristicProperties.write == Some(sender)
      ensures c.characteristicProperties.read == characteristicProperties.read
      ensures c.characteristicProperties.flags == characteristicProperties.flags
      ensures c.descriptorProperties == descriptorProperties && c.uuid == uuid
    {
      this.(characteristicProperties := characteristicProperties.(write := Some(sender)))
    }

    /** `set_characteristic_flags`: replaces the characteristic's flags. */
    function SetCharacteristicFlags(flags: PropertyFlags): (c: Characteristic)
      ensures c.characteristicProperties.flags == flags
      ensures c.characteristicProperties.read == characteristicProperties.read
      ensures c.characteristicProperties.write == characteristicProperties.write
      ensures c.descriptorProperties == descriptorProperties && c.uuid == uuid
    {
      this.(characteristicProperties := characteristicProperties.(flags := flags))
    }

    /** `set_descriptor_read`: attaches the descriptor's read channel. */
    function SetDescriptorRead(sender: EventSender): (c: Characteristic)
      ensures c.descriptorProperties.read == Some(sender)
      ensures c.descriptorProperties.write == descriptorProperties.write
      ensures c.descriptorProperties.flags == descriptorProperties.flags
      ensures c.characteristicProperties == characteristicProperties && c.uuid == uuid
    {
      this.(descriptorProperties := descriptorProperties.(read := Some(sender)))
    }

    /** `set_descriptor_write`: attaches the descriptor's write channel. */
    function SetDescriptorWrite(sender: EventSender): (c: Characteristic)
      ensures c.descriptorProperties.write == Some(sender)
      ensures c.descriptorProperties.read == descriptorProperties.read
      ensures c.descriptorProperties.flags == descriptorProperties.flags
      ensures c.characteristicProperties == characteristicProperties && c.uuid == uuid
    {
      this.(descriptorProperties := descriptorProperties.(write := Some(sender)))
    }

    /**
     * `set_descriptor_flags`, as the source writes it: the flags land in the
     * CHARACTERISTIC's properties, and the descriptor's properties are left
     * as they were.
     */
    function SetDescriptorFlags(flags: PropertyFlags): (c: Characteristic)
      ensures c.characteristicProperties.flags == flags
      ensures c.characteristicProperties.read == characteristicProperties.read
      ensures c.characteristicProperties.write == characteristicProperties.write
      ensures c.descriptorProperties == descriptorProperties && c.uuid == uuid
    {
      this.(characteristicProperties := characteristicProperties.(flags := flags))
    }
  }

  /** One fluent setter call on a characteristic builder, with its argument. */
  datatype Setter =
    | CharacteristicRead(sender: EventSender)
    | CharacteristicWrite(sender: EventSender)
    | CharacteristicFlags(flags: PropertyFlags)
    | DescriptorRead(sender: EventSender)
    | DescriptorWrite(sender: EventSender)
    | DescriptorFlags(flags: PropertyFlags)

  /** The effect of one setter call. */
  function Apply(c: Characteristic, s: Setter): Characteristic
  {
    match s
    case CharacteristicRead(sender) => c.SetCharacteristicRead(sender)
    case CharacteristicWrite(sender) => c.SetCharacteristicWrite(sender)
    case CharacteristicFlags(flags) => c.SetCharacteristicFlags(flags)
    case DescriptorRead(sender) => c.SetDescriptorRead(sender)
    case DescriptorWrite(sender) => c.SetDescriptorWrite(sender)
    case DescriptorFlags(flags) => c.SetDescriptorFlags(flags)
  }

  /** The effect of a fluent call chain `c.set_…(…).set_…(…)…`, left to right. */
  function ApplyAll(c: Characteristic, ss: seq<Setter>): Characteristic
    decreases |ss|
  {
    if ss == [] then c else ApplyAll(Apply(c, ss[0]), ss[1..])
  }

  /** Every setter is idempotent: calling it again with the same argument changes nothing. */
  lemma SettersIdempotent(c: Characteristic, s: Setter)
    ensures Apply(Apply(c, s), s) == Apply(c, s)
  {
  }

  /** The field of a characteristic builder that a setter overwrites. */
  datatype Field =
    | CharacteristicReadField | CharacteristicWriteField | CharacteristicFlagsField
    | DescriptorReadField | DescriptorWriteField | DescriptorFlagsField

  /** Which field each setter overwrites, as the source writes them. */
  function Target(s: Setter): Field
  {
    match s
    case CharacteristicRead(_) => CharacteristicReadField
    case CharacteristicWrite(_) => CharacteristicWriteField
    case CharacteristicFlags(_) => CharacteristicFlagsField
    case DescriptorRead(_) => DescriptorReadField
    case DescriptorWrite(_) => DescriptorWriteField
    case DescriptorFlags(_) => CharacteristicFlagsField
  }

  /** Two calls that overwrite the same field: only the last one's argument remains. */
  lemma SetterLastCallWins(c: Characteristic, s: Setter, t: Setter)
    requires Target(s) == Target(t)
    ensures Apply(Apply(c, s), t) == Apply(c, t)
  {
  }

  /** Two calls that overwrite different fields can be made in either order. */
  lemma SettersCommute(c: Characteristic, s: Setter, t: Setter)
    requires Target(s) != Target(t)
    ensures Apply(Apply(c, s), t) == Apply(Apply(c, t), s)
  {
  }

  /** No setter changes the descriptor's flags. */
  lemma NoSetterTargetsDescriptorFlags(c: Characteristic, s: Setter)
    ensures Apply(c, s).descriptorProperties.flags == c.descriptorProperties.flags
    ensures Target(s) != DescriptorFlagsField
  {
  }

  /**
   * The consequence of `set_descriptor_flags` as written: it is the same
   * call as `set_characteristic_flags`, and it never changes the
   * descriptor's flags.
   */
  lemma SetDescriptorFlagsIsCharacteristicFlags(c: Characteristic, flags: PropertyFlags)
    ensures c.SetDescriptorFlags(flags) == c.SetCharacteristicFlags(flags)
    ensures c.SetDescriptorFlags(flags).descriptorProperties.flags == c.descriptorProperties.flags
    ensures flags != c.characteristicProperties.flags ==> c.SetDescriptorFlags(flags) != c
  {
  }

  /**
   * No chain of setter calls changes a characteristic's uuid (so its place
   * in a service's set) or its descriptor's flags; starting from
   * `Characteristic::new`, the descriptor flags therefore stay empty.
   */
  lemma {:induction false} SettersKeepUuidAndDescriptorFlags(c: Characteristic, ss: seq<Setter>)
    ensures ApplyAll(c, ss).uuid == c.uuid && ApplyAll(c, ss).UuidEq(c)
    ensures ApplyAll(c, ss).descriptorProperties.flags == c.descriptorProperties.flags
    ensures c == Characteristic.New(c.uuid) ==> ApplyAll(c, ss).descriptorProperties.flags == EmptyFlags
    decreases |ss|
  {
    if ss != [] {
      SettersKeepUuidAndDescriptorFlags(Apply(c, ss[0]), ss[1..]);
    }
  }

  /*
   * The service builder
   */

  /** Each characteristic is stored under its own uuid. */
  predicate KeyedByUuid(m: map<Uuid, Characteristic>)
  {
    forall u :: u in m ==> m[u].uuid == u
  }

  /** `HashSet<Characteristic>` with uuid-only equality: one characteristic per uuid. */
  type CharacteristicSet = m: map<Uuid, Characteristic> | KeyedByUuid(m) witness map[]

  /** `ServiceBuilder`. */
  datatype ServiceBuilder = ServiceBuilder(uuid: Uuid, primary: bool, characteristics: CharacteristicSet)
  {
    /** `ServiceBuilder::new`: the given uuid and flag, no characteristics. */
    static function New(uuid: Uuid, primary: bool): (sb: ServiceBuilder)
      ensures sb.uuid == uuid && sb.primary == primary
      ensures sb.characteristics == map[] && sb.Uuids() == {}
    {
      ServiceBuilder(uuid, primary, map[])
    }

    /** The uuids of the characteristics consumed so far. */
    function Uuids(): set<Uuid>
    {
      characteristics.Keys
    }

    /** The characteristics consumed so far, as the elements of the hash set. */
    function Elements(): set<Characteristic>
    {
      characteristics.Values
    }

    /**
     * `new_characteristic`: a chain whose child is a fresh characteristic
     * builder for `uuid` and whose parent is this builder, unchanged.
     */
    method NewCharacteristic(uuid: Uuid) returns (chain: ChainedBuilder<Characteristic, ServiceBuilder>)
      ensures fresh(chain)
      ensures chain.builder == Characteristic.New(uuid)
      ensures chain.result == this
    {
      chain := new ChainedBuilder(Characteristic.New(uuid), this);
    }

    /** `build`: the service's uuid and primary flag; the characteristics are not carried over. */
    function Build(): (s: Service)
      ensures s.uuid == uuid && s.primary == primary
    {
      Service(uuid, primary)
    }

    /**
     * `consume` (`ConsumeBuilder<Characteristic>`): `HashSet::insert`. A
     * characteristic whose uuid is new is added; one whose uuid is already
     * present is dropped and the builder is returned as it was, with the
     * original element kept. There is no error path.
     */
    function Consume(target: Characteristic): (r: ServiceBuilder)
      ensures r.uuid == uuid && r.primary == primary
      ensures r.Uuids() == Uuids() + {target.uuid}
      ensures forall u :: u in characteristics ==> r.characteristics[u] == characteristics[u]
      ensures target.uuid in characteristics ==> r == this
      ensures target.uuid !in characteristics ==>
                |r.characteristics| == |characteristics| + 1 && r.characteristics[target.uuid] == target
    {
      if target.uuid in characteristics then this
      else this.(characteristics := characteristics[target.uuid := target])
    }
  }

  /** The `consume` of `ServiceBuilder`, as the function a chain completes with. */
  function ConsumeCharacteristic(sb: ServiceBuilder, c: Characteristic): ServiceBuilder
  {
    sb.Consume(c)
  }

  /** A second consume is ignored exactly when its uuid is already taken, by the first one or before. */
  lemma ConsumeSecondIgnoredIff(sb: ServiceBuilder, a: Characteristic, b: Characteristic)
    ensures sb.Consume(a).Consume(b) == sb.Consume(a) <==> (a.UuidEq(b) || b.uuid in sb.characteristics)
  {
    var sa := sb.Consume(a);
    if !(a.UuidEq(b) || b.uuid in sb.characteristics) {
      assert b.uuid !in sa.characteristics;
      assert |sa.Consume(b).characteristics| != |sa.characteristics|;
    }
  }

  /** Consuming characteristics with different uuids gives the same set in either order. */
  lemma ConsumeCommutes(sb: ServiceBuilder, a: Characteristic, b: Characteristic)
    requires !a.UuidEq(b)
    ensures sb.Consume(a).Consume(b) == sb.Consume(b).Consume(a)
  {
    var m := sb.characteristics;
    if a.uuid !in m && b.uuid !in m {
      assert m[a.uuid := a][b.uuid := b] == m[b.uuid := b][a.uuid := a];
    }
  }

  /** `build` depends on the uuid and primary flag only, so consuming never changes it. */
  lemma BuildIgnoresCharacteristics(a: ServiceBuilder, b: ServiceBuilder, c: Characteristic)
    ensures a.Build() == b.Build() <==> a.uuid == b.uuid && a.primary == b.primary
    ensures a.Consume(c).Build() == a.Build()
  {
  }

  /*
   * Consuming a sequence of characteristics, as a run of
   * `.new_characteristic(…)….complete_chain()` calls does (`ChainEach`)
   */

  /** The builder after consuming `cs` in order. */
  function ConsumeAll(sb: ServiceBuilder, cs: seq<Characteristic>): ServiceBuilder
    decreases |cs|
  {
    if cs == [] then sb else ConsumeAll(sb.Consume(cs[0]), cs[1..])
  }

  /** The distinct uuids occurring in `cs`. */
  function UuidsOf(cs: seq<Characteristic>): set<Uuid>
  {
    set i | 0 <= i < |cs| :: cs[i].uuid
  }

  lemma UuidsOfCons(cs: seq<Characteristic>)
    requires cs != []
    ensures UuidsOf(cs) == {cs[0].uuid} + UuidsOf(cs[1..])
  {
    forall u | u in UuidsOf(cs) ensures u in {cs[0].uuid} + UuidsOf(cs[1..]) {
      var i :| 0 <= i < |cs| && cs[i].uuid == u;
      if i > 0 {
        assert cs[1..][i - 1].uuid == u;
      }
    }
    forall u | u in UuidsOf(cs[1..]) ensures u in UuidsOf(cs) {
      var i :| 0 <= i < |cs[1..]| && cs[1..][i].uuid == u;
      assert cs[i + 1].uuid == u;
    }
  }

  /** Consuming a sequence keeps uuid and primary and adds exactly the sequence's uuids. */
  lemma {:induction false} ConsumeAllUuids(sb: ServiceBuilder, cs: seq<Characteristic>)
    ensures ConsumeAll(sb, cs).uuid == sb.uuid && ConsumeAll(sb, cs).primary == sb.primary
    ensures ConsumeAll(sb, cs).Uuids() == sb.Uuids() + UuidsOf(cs)
    decreases |cs|
  {
    if cs != [] {
      ConsumeAllUuids(sb.Consume(cs[0]), cs[1..]);
      UuidsOfCons(cs);
    }
  }

  /**
   * From `ServiceBuilder::new(u, p)`: uuid and primary are `u` and `p`, the
   * set's uuids are the sequence's uuids, and its size is the number of
   * distinct uuids in the sequence.
   */
  lemma ConsumeAllFromNew(u: Uuid, p: bool, cs: seq<Characteristic>)
    ensures ConsumeAll(ServiceBuilder.New(u, p), cs).uuid == u
    ensures ConsumeAll(ServiceBuilder.New(u, p), cs).primary == p
    ensures ConsumeAll(ServiceBuilder.New(u, p), cs).Uuids() == UuidsOf(cs)
    ensures |ConsumeAll(ServiceBuilder.New(u, p), cs).characteristics| == |UuidsOf(cs)|
  {
    ConsumeAllUuids(ServiceBuilder.New(u, p), cs);
  }

  /** A characteristic already in the set is never replaced by a later one with its uuid. */
  lemma {:induction false} ConsumeAllKeepsPresent(sb: ServiceBuilder, cs: seq<Characteristic>, u: Uuid)
    requires u in sb.characteristics
    ensures u in ConsumeAll(sb, cs).characteristics
    ensures ConsumeAll(sb, cs).characteristics[u] == sb.characteristics[u]
    decreases |cs|
  {
    if cs != [] {
      ConsumeAllKeepsPresent(sb.Consume(cs[0]), cs[1..], u);
    }
  }

  /** For a uuid new to the builder, the first characteristic in `cs` that carries it is the one kept. */
  lemma {:induction false} ConsumeAllKeepsFirst(sb: ServiceBuilder, cs: seq<Characteristic>, i: nat)
    requires i < |cs| && cs[i].uuid !in sb.characteristics
    requires forall j :: 0 <= j < i ==> cs[j].uuid != cs[i].uuid
    ensures cs[i].uuid in ConsumeAll(sb, cs).characteristics
    ensures ConsumeAll(sb, cs).characteristics[cs[i].uuid] == cs[i]
    decreases |cs|
  {
    if i == 0 {
      ConsumeAllKeepsPresent(sb.Consume(cs[0]), cs[1..], cs[0].uuid);
    } else {
      assert cs[1..][i - 1] == cs[i];
      ConsumeAllKeepsFirst(sb.Consume(cs[0]), cs[1..], i - 1);
    }
  }

  /*
   * The map against the hash set it represents
   */

  /** A `HashSet<Characteristic>` never holds two elements that are equal by uuid. */
  ghost predicate UniqueByUuid(s: set<Characteristic>)
  {
    forall a, b :: a in s && b in s && a.UuidEq(b) ==> a == b
  }

  /**
   * `HashSet::insert` under uuid-only equality, on the set of elements: if an
   * element equal to `c` is present the set is unchanged, otherwise `c` is added.
   */
  function HashSetInsert(s: set<Characteristic>, c: Characteristic): set<Characteristic>
  {
    if exists e :: e in s && e.UuidEq(c) then s else s + {c}
  }

  /** `HashSetInsert` of each element of `cs` in turn. */
  function HashSetInsertAll(s: set<Characteristic>, cs: seq<Characteristic>): set<Characteristic>
    decreases |cs|
  {
    if cs == [] then s else HashSetInsertAll(HashSetInsert(s, cs[0]), cs[1..])
  }

  /** The elements of a characteristic set form a uuid-unique hash set of the same size. */
  lemma {:induction false} ElementsAreHashSet(m: CharacteristicSet)
    ensures UniqueByUuid(m.Values)
    ensures |m.Values| == |m|
    decreases |m.Keys|
  {
    forall a, b | a in m.Values && b in m.Values && a.UuidEq(b) ensures a == b {
      var ka :| ka in m && m[ka] == a;
      var kb :| kb in m && m[kb] == b;
    }
    if m.Keys != {} {
      var u :| u in m.Keys;
      var rest: CharacteristicSet := m - {u};
      assert rest.Keys == m.Keys - {u};
      ElementsAreHashSet(rest);
      assert m.Values == rest.Values + {m[u]} by {
        forall v | v in m.Values ensures v in rest.Values + {m[u]} {
          var k :| k in m && m[k] == v;
          if k != u { assert rest[k] == v; }
        }
        forall v | v in rest.Values ensures v in m.Values {
          var k :| k in rest && rest[k] == v;
          assert m[k] == v;
        }
      }
      assert m[u] !in rest.Values;
    }
  }

  /** No element of a characteristic set is equal to one whose uuid is absent. */
  lemma AbsentUuidHasNoEqual(m: CharacteristicSet, c: Characteristic)
    requires c.uuid !in m
    ensures forall e :: e in m.Values ==> !e.UuidEq(c)
  {
    forall e | e in m.Values ensures !e.UuidEq(c) {
      var k :| k in m && m[k] == e;
    }
  }

  /** Storing a characteristic under a new uuid adds exactly that element. */
  lemma ValuesOfInsert(m: CharacteristicSet, c: Characteristic)
    requires c.uuid !in m
    ensures m[c.uuid := c].Values == m.Values + {c}
  {
    var m' := m[c.uuid := c];
    forall v | v in m'.Values ensures v in m.Values + {c} {
      var k :| k in m' && m'[k] == v;
      if k != c.uuid { assert m[k] == v; }
    }
    forall v | v in m.Values ensures v in m'.Values {
      var k :| k in m && m[k] == v;
      assert m'[k] == v;
    }
    assert m'[c.uuid] == c;
  }

  /** `consume` on the map is `HashSet::insert` on its elements. */
  lemma ConsumeIsHashSetInsert(sb: ServiceBuilder, c: Characteristic)
    ensures sb.Consume(c).Elements() == HashSetInsert(sb.Elements(), c)
  {
    var m := sb.characteristics;
    if c.uuid in m {
      assert m[c.uuid] in m.Values && m[c.uuid].UuidEq(c);
    } else {
      AbsentUuidHasNoEqual(m, c);
      ValuesOfInsert(m, c);
    }
  }

  /** Consuming a sequence is inserting its elements into the hash set one by one. */
  lemma {:induction false} ConsumeAllIsHashSetInsertAll(sb: ServiceBuilder, cs: seq<Characteristic>)
    ensures ConsumeAll(sb, cs).Elements() == HashSetInsertAll(sb.Elements(), cs)
    ensures UniqueByUuid(HashSetInsertAll(sb.Elements(), cs))
    decreases |cs|
  {
    if cs == [] {
      ElementsAreHashSet(sb.characteristics);
    } else {
      ConsumeIsHashSetInsert(sb, cs[0]);
      ConsumeAllIsHashSetInsertAll(sb.Consume(cs[0]), cs[1..]);
    }
  }

  /*
   * End to end
   */

  /** The characteristic each call chain `new_characteristic(u)` followed by setters `ss` configures. */
  function Configured(calls: seq<(Uuid, seq<Setter>)>): (cs: seq<Characteristic>)
    ensures |cs| == |calls|
    ensures forall i :: 0 <= i < |calls| ==> cs[i] == ApplyAll(Characteristic.New(calls[i].0), calls[i].1)
  {
    seq(|calls|, i requires 0 <= i < |calls| => ApplyAll(Characteristic.New(calls[i].0), calls[i].1))
  }

  /**
   * A run of chains on one service builder: for each `(u, ss)` in turn,
   * `.new_characteristic(u)`, the setter calls `ss` made through the chain,
   * and `.complete_chain()`. The builder that comes out is the one that
   * consuming the configured characteristics in order gives.
   */
  method ChainEach(sb0: ServiceBuilder, calls: seq<(Uuid, seq<Setter>)>) returns (sb: ServiceBuilder)
    ensures sb == ConsumeAll(sb0, Configured(calls))
  {
    ghost var cs := Configured(calls);
    sb := sb0;
    for i := 0 to |calls|
      invariant ConsumeAll(sb, cs[i..]) == ConsumeAll(sb0, cs)
    {
      var chain := sb.NewCharacteristic(calls[i].0);
      var setters := calls[i].1;
      chain.DerefMut((x: Characteristic) => ApplyAll(x, setters));
      assert cs[i..][1..] == cs[i + 1..];
      sb := chain.CompleteChain(ConsumeCharacteristic);
    }
    assert cs[|calls|..] == [];
  }

  /**
   * `ServiceBuilder::new(u, p).new_characteristic(c).complete_chain()`: a
   * builder with uuid `u`, primary `p` and one default characteristic `c`.
   */
  method SingleCharacteristicService(u: Uuid, p: bool, c: Uuid) returns (sb: ServiceBuilder)
    ensures sb.uuid == u && sb.primary == p && sb.Uuids() == {c}
    ensures sb.characteristics[c] == Characteristic.New(c)
  {
    var chain := ServiceBuilder.New(u, p).NewCharacteristic(c);
    sb := chain.CompleteChain(ConsumeCharacteristic);
  }

  /**
   * The same chain with `.set_characteristic_flags(flags)` and
   * `.set_characteristic_read(reader)` called on it before completing: the
   * settings reach the consumed characteristic, and nothing else does.
   */
  method ConfiguredCharacteristicService(u: Uuid, p: bool, c: Uuid, flags: PropertyFlags, reader: EventSender)
    returns (sb: ServiceBuilder)
    ensures sb.uuid == u && sb.primary == p && sb.Uuids() == {c}
    ensures sb.characteristics[c] == Characteristic(c, Properties(flags, Some(reader), None), DefaultProperties)
  {
    var chain := ServiceBuilder.New(u, p).NewCharacteristic(c);
    chain.DerefMut((x: Characteristic) => x.SetCharacteristicFlags(flags));
    chain.DerefMut((x: Characteristic) => x.SetCharacteristicRead(reader));
    sb := chain.CompleteChain(ConsumeCharacteristic);
  }
}
