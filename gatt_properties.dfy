/**
 * The value types a GATT builder stores without interpreting them: uuids,
 * capability flags, the sending side of an event channel, and the
 * `Properties` record that groups one attribute's flags with its optional
 * read and write channels.
 */
module GattProperties {
  import opened Wrappers

  /** One more than the largest 128-bit value. */
  const UuidBound: int := 0x1_0000_0000_0000_0000_0000_0000_0000_0000

  /** A 128-bit `uuid::Uuid`; the builder only compares uuids for equality. */
  newtype Uuid = n: int | 0 <= n < UuidBound

  /**
   * A `PropertyFlags` bit set. The builder copies flags around but never
   * tests a bit, so the set is kept as its bit pattern.
   */
  datatype PropertyFlags = PropertyFlags(bits: nat)

  /** The empty flag set, which is what `Properties::default()` starts with. */
  const EmptyFlags: PropertyFlags := PropertyFlags(0)

  /**
   * The sending side of an event channel (`mpsc::Sender<Event>`), identified
   * by the channel it feeds. No traffic on the channel is modelled.
   */
  datatype EventSender = EventSender(channel: nat)

  /** `Properties<EventSender>`: one attribute's flags and optional channels. */
  datatype Properties = Properties(flags: PropertyFlags, read: Option<EventSender>, write: Option<EventSender>)

  /** `Properties::default()`: no flags and no channels. */
  const DefaultProperties: Properties := Properties(EmptyFlags, None, None)
}
