/** Reading a price feed out of an untrusted update: what the bytes say, and the two readers, the program's and the
    client's, that must say the same. */
module Price {
  import opened Numbers

  type Bytes = seq<u8>

  const MAX_PRICE_AGE_SECONDS := 60
  const MAX_CONFIDENCE_BPS := 50
  const SOLANA_FORMAT_MAGIC: u32 := 2_182_742_457
  const PAYLOAD_FORMAT_MAGIC: u32 := 2_479_346_549

  /** Dollars as `price` times ten to the `exponent`; the confidence is scaled alike. */
  datatype Quote = Quote(price: u64, confidence: u64, exponent: i16)

  const DOLLAR := Quote(1, 0, 0)

  /** What an update says of one feed; zero prices and confidences read as absent. */
  datatype Feed = Feed(
    price: Option<i64>, confidence: Option<i64>, exponent: Option<i16>, updatedAt: Option<u64>)

  const NO_FEED := Feed(None, None, None, None)

  // Little-endian numbers

  function LittleU16(s: Bytes): u16
    requires |s| >= 2
  {
    (s[0] as int) + 0x100 * (s[1] as int)
  }

  function LittleU32(s: Bytes): u32
    requires |s| >= 4
  {
    (LittleU16(s) as int) + 0x1_0000 * (LittleU16(s[2..]) as int)
  }

  function LittleU64(s: Bytes): u64
    requires |s| >= 8
  {
    (LittleU32(s) as int) + 0x1_0000_0000 * (LittleU32(s[4..]) as int)
  }

  function SignedI16(value: u16): i16 {
    if value < 0x8000 then value else value - 0x1_0000
  }

  function SignedI64(value: u64): i64 {
    if value <= I64_MAX then value else value - (U64_MAX + 1)
  }

  // What the bytes say: each read gives a value and the bytes after it

  function ReadU8(s: Bytes): Result<(u8, Bytes)> {
    if |s| < 1 then Err(InvalidPriceUpdate) else Ok((s[0], s[1..]))
  }

  function ReadU16(s: Bytes): Result<(u16, Bytes)> {
    if |s| < 2 then Err(InvalidPriceUpdate) else Ok((LittleU16(s), s[2..]))
  }

  function ReadU32(s: Bytes): Result<(u32, Bytes)> {
    if |s| < 4 then Err(InvalidPriceUpdate) else Ok((LittleU32(s), s[4..]))
  }

  function ReadU64(s: Bytes): Result<(u64, Bytes)> {
    if |s| < 8 then Err(InvalidPriceUpdate) else Ok((LittleU64(s), s[8..]))
  }

  function SkipBytes(s: Bytes, length: nat): Result<Bytes> {
    if |s| < length then Err(InvalidPriceUpdate) else Ok(s[length..])
  }

  function ReadNonzero(s: Bytes): Result<(Option<i64>, Bytes)> {
    var (value, rest) :- ReadU64(s);
    Ok((if value == 0 then None else Some(SignedI64(value)), rest))
  }

  function ReadOptional(s: Bytes): Result<(Option<u64>, Bytes)> {
    var (flag, rest) :- ReadU8(s);
    if flag == 0 then Ok((None, rest))
    else if flag == 1 then
      var (value, rest) :- ReadU64(rest);
      Ok((Some(value), rest))
    else Err(InvalidPriceUpdate)
  }

  /** One property of a feed: its number, then its value. */
  function ReadProperty(s: Bytes, feed: Feed): Result<(Feed, Bytes)> {
    var (property, s) :- ReadU8(s);
    if property == 0 then
      var (price, s) :- ReadNonzero(s);
      Ok((feed.(price := price), s))
    else if property == 4 then
      var (exponent, s) :- ReadU16(s);
      Ok((feed.(exponent := Some(SignedI16(exponent))), s))
    else if property == 5 then
      var (confidence, s) :- ReadNonzero(s);
      Ok((feed.(confidence := confidence), s))
    else if property == 12 then
      var (updatedAt, s) :- ReadOptional(s);
      Ok((feed.(updatedAt := updatedAt), s))
    else if property == 1 || property == 2 || property == 10 || property == 11 then
      var s :- SkipBytes(s, 8);
      Ok((feed, s))
    else if property == 3 || property == 9 then
      var s :- SkipBytes(s, 2);
      Ok((feed, s))
    else if 6 <= property <= 8 then
      var (_, s) :- ReadOptional(s);
      Ok((feed, s))
    else Err(InvalidPriceUpdate)
  }

  function ReadProperties(s: Bytes, count: nat, feed: Feed): Result<(Feed, Bytes)>
    decreases count
  {
    if count == 0 then Ok((feed, s))
    else
      var (feed, s) :- ReadProperty(s, feed);
      ReadProperties(s, count - 1, feed)
  }

  /** The first of `count` feeds whose id is `feedId`; feeds after it are not read. */
  function ReadFeeds(s: Bytes, count: nat, feedId: u32): Result<Option<Feed>>
    decreases count
  {
    if count == 0 then Ok(None)
    else
      var (id, s) :- ReadU32(s);
      var (properties, s) :- ReadU8(s);
      var (feed, s) :- ReadProperties(s, properties, NO_FEED);
      if id == feedId then Ok(Some(feed)) else ReadFeeds(s, count - 1, feedId)
  }

  function FindFeed(payload: Bytes, feedId: u32): Result<Option<Feed>> {
    var (magic, s) :- ReadU32(payload);
    var _ :- Require(magic == PAYLOAD_FORMAT_MAGIC, InvalidPriceUpdate);
    var s :- SkipBytes(s, 9);
    var (count, s) :- ReadU8(s);
    ReadFeeds(s, count, feedId)
  }

  /** The payload of an update: after magic, signature, public key and length, all that is left. */
  function Payload(message: Bytes): Result<Bytes> {
    var (magic, s) :- ReadU32(message);
    var _ :- Require(magic == SOLANA_FORMAT_MAGIC, InvalidPriceUpdate);
    var s :- SkipBytes(s, 96);
    var (length, s) :- ReadU16(s);
    var _ :- Require(|s| == length, InvalidPriceUpdate);
    Ok(s)
  }

  /** The quote a feed gives at `now`, or why it gives none. */
  function FeedQuote(feed: Option<Feed>, now: int, maxAge: int): Result<Quote> {
    if feed.None? then Err(PriceUnavailable)
    else
      var f := feed.value;
      if f.price.None? || f.confidence.None? || f.exponent.None? || f.updatedAt.None? then Err(PriceUnavailable)
      else if f.price.value < 0 || f.confidence.value < 0 then Err(PriceUnavailable)
      else if now - f.updatedAt.value / 1_000_000 > maxAge then Err(StalePrice)
      else if f.confidence.value * 10_000 > f.price.value * MAX_CONFIDENCE_BPS then Err(PriceUncertain)
      else Ok(Quote(f.price.value, f.confidence.value, f.exponent.value))
  }

  /** What an update says of a feed, if its price is no older than `maxAge`. */
  function QuoteWithin(message: Bytes, feedId: u32, now: int, maxAge: int): Result<Quote> {
    if feedId == 0 then
      if message == [] then Ok(DOLLAR) else Err(InvalidPriceUpdate)
    else
      var payload :- Payload(message);
      var feed :- FindFeed(payload, feedId);
      FeedQuote(feed, now, maxAge)
  }

  function QuoteOf(message: Bytes, feedId: u32, now: int): Result<Quote> {
    QuoteWithin(message, feedId, now, MAX_PRICE_AGE_SECONDS)
  }

  /** A quote a sender finds within a younger age is the program's for as long after as the program's age is longer. */
  lemma YoungerQuotesLast(message: Bytes, feedId: u32, now: int, maxAge: int, later: int)
    requires QuoteWithin(message, feedId, now, maxAge).Ok?
    requires later <= now + MAX_PRICE_AGE_SECONDS - maxAge
    ensures QuoteOf(message, feedId, later) == QuoteWithin(message, feedId, now, maxAge)
  {
    hide Payload, FindFeed;
  }

  /** Every quote of an update has a nonzero price and a nonzero confidence of at most half a percent of it. */
  lemma QuotesAreUsable(message: Bytes, feedId: u32, now: int)
    requires feedId != 0 && QuoteOf(message, feedId, now).Ok?
    ensures var quote := QuoteOf(message, feedId, now).value;
            && 0 < quote.price <= I64_MAX && 0 < quote.confidence
            && quote.confidence * 200 <= quote.price
  {
    var payload := Payload(message).value;
    var feeds := payload[4..][9..];
    FeedsAreNonzero(feeds[1..], feeds[0], feedId);
  }

  predicate NonzeroFeed(feed: Feed) {
    feed.price != Some(0) && feed.confidence != Some(0)
  }

  lemma {:induction false} PropertiesAreNonzero(s: Bytes, count: nat, feed: Feed)
    requires NonzeroFeed(feed) && ReadProperties(s, count, feed).Ok?
    ensures NonzeroFeed(ReadProperties(s, count, feed).value.0)
    decreases count
  {
    if count > 0 {
      var (next, rest) := ReadProperty(s, feed).value;
      PropertiesAreNonzero(rest, count - 1, next);
    }
  }

  lemma {:induction false} FeedsAreNonzero(s: Bytes, count: nat, feedId: u32)
    requires ReadFeeds(s, count, feedId).Ok? && ReadFeeds(s, count, feedId).value.Some?
    ensures NonzeroFeed(ReadFeeds(s, count, feedId).value.value)
    decreases count
  {
    var (id, afterId) := ReadU32(s).value;
    var (properties, afterCount) := ReadU8(afterId).value;
    PropertiesAreNonzero(afterCount, properties, NO_FEED);
    if id != feedId {
      FeedsAreNonzero(ReadProperties(afterCount, properties, NO_FEED).value.1, count - 1, feedId);
    }
  }

  // The program's reader: a slice that shrinks

  class ProgramReader {
    var bytes: Bytes

    constructor (bytes: Bytes)
      ensures this.bytes == bytes
    {
      this.bytes := bytes;
    }

    method Take(length: nat) returns (r: Result<Bytes>)
      modifies this
      ensures if |old(bytes)| < length then r == Err(InvalidPriceUpdate)
              else r == Ok(old(bytes)[..length]) && bytes == old(bytes)[length..]
    {
      if |bytes| < length {
        return Err(InvalidPriceUpdate);
      }
      r := Ok(bytes[..length]);
      bytes := bytes[length..];
    }

    method Skip(length: nat) returns (r: Result<()>)
      modifies this
      ensures match SkipBytes(old(bytes), length)
              case Ok(rest) => r == Ok(()) && bytes == rest
              case Err(e) => r == Err(e)
    {
      var _ :- Take(length);
      r := Ok(());
    }

    method U8() returns (r: Result<u8>)
      modifies this
      ensures match ReadU8(old(bytes))
              case Ok(read) => r == Ok(read.0) && bytes == read.1
              case Err(e) => r == Err(e)
    {
      var chunk :- Take(1);
      r := Ok(chunk[0]);
    }

    method U16() returns (r: Result<u16>)
      modifies this
      ensures match ReadU16(old(bytes))
              case Ok(read) => r == Ok(read.0) && bytes == read.1
              case Err(e) => r == Err(e)
    {
      var chunk :- Take(2);
      r := Ok(LittleU16(chunk));
    }

    method U32() returns (r: Result<u32>)
      modifies this
      ensures match ReadU32(old(bytes))
              case Ok(read) => r == Ok(read.0) && bytes == read.1
              case Err(e) => r == Err(e)
    {
      var chunk :- Take(4);
      assert chunk[2..] == old(bytes)[2..][..2];
      r := Ok(LittleU32(chunk));
    }

    method U64() returns (r: Result<u64>)
      modifies this
      ensures match ReadU64(old(bytes))
              case Ok(read) => r == Ok(read.0) && bytes == read.1
              case Err(e) => r == Err(e)
    {
      var chunk :- Take(8);
      Chunk64(old(bytes));
      r := Ok(LittleU64(chunk));
    }

    method Nonzero() returns (r: Result<Option<i64>>)
      modifies this
      ensures match ReadNonzero(old(bytes))
              case Ok(read) => r == Ok(read.0) && bytes == read.1
              case Err(e) => r == Err(e)
    {
      var value :- U64();
      r := Ok(if SignedI64(value) == 0 then None else Some(SignedI64(value)));
    }

    method Optional() returns (r: Result<Option<u64>>)
      modifies this
      ensures match ReadOptional(old(bytes))
              case Ok(read) => r == Ok(read.0) && bytes == read.1
              case Err(e) => r == Err(e)
    {
      var flag :- U8();
      if flag == 0 {
        return Ok(None);
      }
      if flag != 1 {
        return Err(InvalidPriceUpdate);
      }
      var value :- U64();
      r := Ok(Some(value));
    }

    /** One property read into `feed`. */
    method Property(feed: Feed) returns (r: Result<Feed>)
      modifies this
      ensures match ReadProperty(old(bytes), feed)
              case Ok(read) => r == Ok(read.0) && bytes == read.1
              case Err(e) => r == Err(e)
    {
      var property :- U8();
      match property {
        case 0 =>
          var price :- Nonzero();
          return Ok(feed.(price := price));
        case 4 =>
          var exponent :- U16();
          return Ok(feed.(exponent := Some(SignedI16(exponent))));
        case 5 =>
          var confidence :- Nonzero();
          return Ok(feed.(confidence := confidence));
        case 12 =>
          var updatedAt :- Optional();
          return Ok(feed.(updatedAt := updatedAt));
        case _ =>
          if property in {1, 2, 10, 11} {
            var _ :- Skip(8);
          } else if property in {3, 9} {
            var _ :- Skip(2);
          } else if 6 <= property <= 8 {
            var _ :- Optional();
          } else {
            return Err(InvalidPriceUpdate);
          }
          return Ok(feed);
      }
    }

    /** A feed's `count` properties. */
    method Properties(count: u8) returns (r: Result<Feed>)
      modifies this
      ensures match ReadProperties(old(bytes), count, NO_FEED)
              case Ok(read) => r == Ok(read.0) && bytes == read.1
              case Err(e) => r == Err(e)
    {
      hide ReadProperty;
      var feed := NO_FEED;
      var i := 0;
      while i < count
        invariant 0 <= i <= count
        invariant ReadProperties(old(bytes), count, NO_FEED) == ReadProperties(bytes, count - i, feed)
      {
        feed :- Property(feed);
        i := i + 1;
      }
      r := Ok(feed);
    }
  }

  lemma Chunk64(s: Bytes)
    ensures |s| >= 8 ==> LittleU64(s[..8]) == LittleU64(s)
  {
    if |s| >= 8 {
      assert s[..8][4..][2..] == s[6..8];
      assert s[4..][2..] == s[6..];
      assert s[..8][2..] == s[2..8];
    }
  }

  method ProgramFindFeed(payload: Bytes, feedId: u32) returns (r: Result<Option<Feed>>)
    ensures r == FindFeed(payload, feedId)
  {
    hide ReadProperties, ReadU8, ReadU32;
    var reader := new ProgramReader(payload);
    var magic :- reader.U32();
    if magic != PAYLOAD_FORMAT_MAGIC {
      return Err(InvalidPriceUpdate);
    }
    var _ :- reader.Skip(9);
    var count :- reader.U8();
    ghost var feeds := reader.bytes;
    var i := 0;
    while i < count
      invariant 0 <= i <= count
      invariant fresh(reader)
      invariant ReadFeeds(feeds, count, feedId) == ReadFeeds(reader.bytes, count - i, feedId)
    {
      var id :- reader.U32();
      var properties :- reader.U8();
      var feed :- reader.Properties(properties);
      if id == feedId {
        return Ok(Some(feed));
      }
      i := i + 1;
    }
    return Ok(None);
  }

  method ProgramPayload(message: Bytes) returns (r: Result<Bytes>)
    ensures r == Payload(message)
  {
    var reader := new ProgramReader(message);
    var magic :- reader.U32();
    if magic != SOLANA_FORMAT_MAGIC {
      return Err(InvalidPriceUpdate);
    }
    var _ :- reader.Skip(96);
    var length :- reader.U16();
    if |reader.bytes| != length {
      return Err(InvalidPriceUpdate);
    }
    return Ok(reader.bytes);
  }

  /** The program's `quote`, whose age saturates. */
  method ProgramQuote(message: Bytes, feedId: u32, now: i64) returns (r: Result<Quote>)
    ensures r == QuoteOf(message, feedId, now)
    ensures feedId == 0 ==> r == if message == [] then Ok(Quote(1, 0, 0)) else Err(InvalidPriceUpdate)
  {
    if feedId == 0 {
      return if message == [] then Ok(DOLLAR) else Err(InvalidPriceUpdate);
    }
    var payload :- ProgramPayload(message);
    var found :- ProgramFindFeed(payload, feedId);
    if found.None? {
      return Err(PriceUnavailable);
    }
    var feed := found.value;
    if feed.price.None? || feed.confidence.None? || feed.exponent.None? || feed.updatedAt.None? {
      return Err(PriceUnavailable);
    }
    var price, confidence := feed.price.value, feed.confidence.value;
    if price < 0 || confidence < 0 {
      return Err(PriceUnavailable);
    }
    if SaturateI64(now - feed.updatedAt.value / 1_000_000) > MAX_PRICE_AGE_SECONDS {
      return Err(StalePrice);
    }
    if confidence * 10_000 > price * MAX_CONFIDENCE_BPS {
      return Err(PriceUncertain);
    }
    return Ok(Quote(price, confidence, feed.exponent.value));
  }

  // The client's reader: an offset that advances

  class ClientReader {
    const bytes: Bytes
    var offset: nat

    ghost predicate Valid()
      reads this
    {
      offset <= |bytes|
    }

    /** The bytes still to be read. */
    ghost function Rest(): Bytes
      requires Valid()
      reads this
    {
      bytes[offset..]
    }

    constructor (bytes: Bytes)
      ensures Valid() && offset == 0 && this.bytes == bytes && Rest() == bytes
    {
      this.bytes, offset := bytes, 0;
    }

    method Take(length: nat) returns (r: Result<Bytes>)
      requires Valid()
      modifies this
      ensures Valid()
      ensures if |old(Rest())| < length then r == Err(InvalidPriceUpdate)
              else r == Ok(old(Rest())[..length]) && Rest() == old(Rest())[length..]
    {
      if |bytes| - offset < length {
        return Err(InvalidPriceUpdate);
      }
      r := Ok(bytes[offset..offset + length]);
      assert bytes[offset..offset + length] == Rest()[..length];
      offset := offset + length;
      assert Rest() == old(Rest())[length..];
    }

    method U8() returns (r: Result<u8>)
      requires Valid()
      modifies this
      ensures Valid()
      ensures match ReadU8(old(Rest()))
              case Ok(read) => r == Ok(read.0) && Rest() == read.1
              case Err(e) => r == Err(e)
    {
      var view :- Take(1);
      r := Ok(view[0]);
    }

    method U16() returns (r: Result<u16>)
      requires Valid()
      modifies this
      ensures Valid()
      ensures match ReadU16(old(Rest()))
              case Ok(read) => r == Ok(read.0) && Rest() == read.1
              case Err(e) => r == Err(e)
    {
      var view :- Take(2);
      r := Ok(LittleU16(view));
    }

    method U32() returns (r: Result<u32>)
      requires Valid()
      modifies this
      ensures Valid()
      ensures match ReadU32(old(Rest()))
              case Ok(read) => r == Ok(read.0) && Rest() == read.1
              case Err(e) => r == Err(e)
    {
      var view :- Take(4);
      assert view[2..] == old(Rest())[2..][..2];
      r := Ok(LittleU32(view));
    }

    method U64() returns (r: Result<u64>)
      requires Valid()
      modifies this
      ensures Valid()
      ensures match ReadU64(old(Rest()))
              case Ok(read) => r == Ok(read.0) && Rest() == read.1
              case Err(e) => r == Err(e)
    {
      var view :- Take(8);
      Chunk64(old(Rest()));
      r := Ok(LittleU64(view));
    }

    method Optional() returns (r: Result<Option<u64>>)
      requires Valid()
      modifies this
      ensures Valid()
      ensures match ReadOptional(old(Rest()))
              case Ok(read) => r == Ok(read.0) && Rest() == read.1
              case Err(e) => r == Err(e)
    {
      var flag :- U8();
      if flag == 0 {
        return Ok(None);
      }
      if flag == 1 {
        var value :- U64();
        return Ok(Some(value));
      }
      return Err(InvalidPriceUpdate);
    }

    method Nonzero() returns (r: Result<Option<i64>>)
      requires Valid()
      modifies this
      ensures Valid()
      ensures match ReadNonzero(old(Rest()))
              case Ok(read) => r == Ok(read.0) && Rest() == read.1
              case Err(e) => r == Err(e)
    {
      var value :- U64();
      r := Ok(if SignedI64(value) == 0 then None else Some(SignedI64(value)));
    }

    /** One property read into `feed`. */
    method Property(feed: Feed) returns (r: Result<Feed>)
      requires Valid()
      modifies this
      ensures Valid()
      ensures match ReadProperty(old(Rest()), feed)
              case Ok(read) => r == Ok(read.0) && Rest() == read.1
              case Err(e) => r == Err(e)
    {
      var property :- U8();
      if property == 0 {
        var price :- Nonzero();
        return Ok(feed.(price := price));
      } else if property == 4 {
        var exponent :- U16();
        return Ok(feed.(exponent := Some(SignedI16(exponent))));
      } else if property == 5 {
        var confidence :- Nonzero();
        return Ok(feed.(confidence := confidence));
      } else if property == 12 {
        var updatedAt :- Optional();
        return Ok(feed.(updatedAt := updatedAt));
      } else if property in [1, 2, 10, 11] {
        var _ :- Take(8);
      } else if property == 3 || property == 9 {
        var _ :- Take(2);
      } else if property >= 6 && property <= 8 {
        var _ :- Optional();
      } else {
        return Err(InvalidPriceUpdate);
      }
      return Ok(feed);
    }

    /** A feed's `count` properties. */
    method Properties(count: u8) returns (r: Result<Feed>)
      requires Valid()
      modifies this
      ensures Valid()
      ensures match ReadProperties(old(Rest()), count, NO_FEED)
              case Ok(read) => r == Ok(read.0) && Rest() == read.1
              case Err(e) => r == Err(e)
    {
      hide ReadProperty;
      var feed := NO_FEED;
      var properties: nat := count;
      while properties > 0
        invariant Valid()
        invariant ReadProperties(old(Rest()), count, NO_FEED) == ReadProperties(Rest(), properties, feed)
      {
        feed :- Property(feed);
        properties := properties - 1;
      }
      r := Ok(feed);
    }
  }

  method ClientFindFeed(payload: Bytes, feedId: u32) returns (r: Result<Option<Feed>>)
    ensures r == FindFeed(payload, feedId)
  {
    hide ReadProperties, ReadU8, ReadU32;
    var reader := new ClientReader(payload);
    var magic :- reader.U32();
    if magic != PAYLOAD_FORMAT_MAGIC {
      return Err(InvalidPriceUpdate);
    }
    var _ :- reader.Take(9);
    var count :- reader.U8();
    ghost var feeds := reader.Rest();
    var left: nat := count;
    while left > 0
      invariant fresh(reader) && reader.Valid()
      invariant ReadFeeds(feeds, count, feedId) == ReadFeeds(reader.Rest(), left, feedId)
    {
      var id :- reader.U32();
      var properties :- reader.U8();
      var feed :- reader.Properties(properties);
      if id == feedId {
        return Ok(Some(feed));
      }
      left := left - 1;
    }
    return Ok(None);
  }

  method ClientPayload(message: Bytes) returns (r: Result<Bytes>)
    ensures r == Payload(message)
  {
    var reader := new ClientReader(message);
    var magic :- reader.U32();
    if magic != SOLANA_FORMAT_MAGIC {
      return Err(InvalidPriceUpdate);
    }
    var _ :- reader.Take(96);
    var length :- reader.U16();
    if length != |message| - reader.offset {
      return Err(InvalidPriceUpdate);
    }
    return Ok(message[102..]);
  }

  /** The client's `quote`, at the age a sender asks for; without one, at the program's. */
  method ClientQuote(message: Bytes, feedId: u32, now: i64, maxAge: i64 := MAX_PRICE_AGE_SECONDS)
    returns (r: Result<Quote>)
    ensures r == QuoteWithin(message, feedId, now, maxAge)
    ensures feedId == 0 ==> r == if message == [] then Ok(Quote(1, 0, 0)) else Err(InvalidPriceUpdate)
  {
    if feedId == 0 {
      if |message| != 0 {
        return Err(InvalidPriceUpdate);
      }
      return Ok(DOLLAR);
    }
    var payload :- ClientPayload(message);
    var found :- ClientFindFeed(payload, feedId);
    if found.None? {
      return Err(PriceUnavailable);
    }
    var feed := found.value;
    if feed.price.None? || feed.confidence.None? || feed.exponent.None? || feed.updatedAt.None? {
      return Err(PriceUnavailable);
    }
    var price, confidence := feed.price.value, feed.confidence.value;
    if price < 0 || confidence < 0 {
      return Err(PriceUnavailable);
    }
    if now - feed.updatedAt.value / 1_000_000 > maxAge {
      return Err(StalePrice);
    }
    if confidence * 10_000 > price * MAX_CONFIDENCE_BPS {
      return Err(PriceUncertain);
    }
    return Ok(Quote(price, confidence, feed.exponent.value));
  }

  // Writing an update, and reading it back

  function Bytes16(value: u16): Bytes {
    [value % 0x100, value / 0x100]
  }

  function Bytes32(value: u32): Bytes {
    Bytes16(value % 0x1_0000) + Bytes16(value / 0x1_0000)
  }

  function Bytes64(value: u64): Bytes {
    Bytes32(value % 0x1_0000_0000) + Bytes32(value / 0x1_0000_0000)
  }

  function UnsignedI16(value: i16): u16 {
    if value < 0 then value + 0x1_0000 else value
  }

  /** Exactly the messages whose first four bytes are the format's and whose stated length, after 96 more, is the rest's
      have a payload: the rest. */
  lemma PayloadsAre(message: Bytes)
    ensures Payload(message)
            == if |message| >= 102 && message[..4] == [0xB9, 0x01, 0x1A, 0x82]
                  && message[100] + 0x100 * (message[101] as int) == |message| - 102
               then Ok(message[102..]) else Err(InvalidPriceUpdate)
  {
    hide LittleU32;
    if |message| >= 102 {
      FirstFour(message);
      assert message[4..][96..] == message[100..];
      assert message[100..][2..] == message[102..];
    }
  }

  lemma FirstFour(s: Bytes)
    requires |s| >= 4
    ensures LittleU32(s) == 2_182_742_457 <==> s[..4] == [0xB9, 0x01, 0x1A, 0x82]
  {
  }

  /** How many bytes follow a property's number that no quote needs. */
  predicate IsOther(property: u8, value: Bytes) {
    match property
    case 1 => |value| == 8
    case 2 => |value| == 8
    case 3 => |value| == 2
    case 6 => IsOptional(value)
    case 7 => IsOptional(value)
    case 8 => IsOptional(value)
    case 9 => |value| == 2
    case 10 => |value| == 8
    case 11 => |value| == 8
    case _ => false
  }

  predicate IsOptional(value: Bytes) {
    value == [0] || (|value| == 9 && value[0] == 1)
  }

  /** The properties no quote needs are skipped, and there are none of a number above 12. */
  lemma OtherPropertiesAreSkipped(property: u8, value: Bytes, rest: Bytes, feed: Feed)
    ensures IsOther(property, value) ==> ReadProperty([property] + (value + rest), feed) == Ok((feed, rest))
    ensures property > 12 ==> ReadProperty([property] + rest, feed) == Err(InvalidPriceUpdate)
  {
    assert ([property] + (value + rest))[1..] == value + rest;
    if IsOther(property, value) {
      assert (value + rest)[|value|..] == rest;
      if 6 <= property <= 8 {
        assert (value + rest)[1..] == value[1..] + rest;
        assert (value[1..] + rest)[|value| - 1..] == rest;
      }
    }
  }

  /** A feed that says it has no update time gives no quote. */
  lemma NoTimeNoQuote(rest: Bytes, feed: Feed, now: int, maxAge: int)
    ensures ReadProperty([12, 0] + rest, feed) == Ok((feed.(updatedAt := None), rest))
    ensures feed.updatedAt.None? ==> FeedQuote(Some(feed), now, maxAge) == Err(PriceUnavailable)
  {
    assert ([12, 0] + rest)[1..][1..] == rest;
  }

  /** A feed as an update carries it: price, exponent, confidence and update time. */
  function FeedBytes(id: u32, quote: Quote, micros: u64): Bytes {
    Bytes32(id) + ([4, 0] + (Bytes64(quote.price) + ([4] + (Bytes16(UnsignedI16(quote.exponent))
    + ([5] + (Bytes64(quote.confidence) + ([12, 1] + Bytes64(micros))))))))
  }

  function FeedsBytes(feeds: seq<(u32, Quote)>, micros: u64): Bytes {
    if feeds == [] then [] else FeedBytes(feeds[0].0, feeds[0].1, micros) + FeedsBytes(feeds[1..], micros)
  }

  function PayloadBytes(micros: u64, count: u8, feeds: Bytes): Bytes {
    Bytes32(2_479_346_549) + (Bytes64(micros) + ([3, count] + feeds))
  }

  /** An update of `feeds` published at `at`, with `envelope` for its signature and key. */
  function PythUpdate(envelope: Bytes, at: nat, feeds: seq<(u32, Quote)>): Bytes
    requires |envelope| == 96 && at * 1_000_000 <= U64_MAX && |feeds| <= 255
  {
    var micros := at * 1_000_000;
    var payload := PayloadBytes(micros, |feeds|, FeedsBytes(feeds, micros));
    FeedsLength(feeds, micros);
    Bytes32(2_182_742_457) + (envelope + (Bytes16(|payload|) + payload))
  }

  lemma {:induction false} FeedsLength(feeds: seq<(u32, Quote)>, micros: u64)
    ensures |FeedsBytes(feeds, micros)| == 36 * |feeds|
  {
    if feeds != [] {
      FeedsLength(feeds[1..], micros);
    }
  }

  function FirstOf(feeds: seq<(u32, Quote)>, feedId: u32): Option<Quote> {
    if feeds == [] then None
    else if feeds[0].0 == feedId then Some(feeds[0].1)
    else FirstOf(feeds[1..], feedId)
  }

  /** What reading a written quote gives: itself, if its numbers are nonzero and fit, it is fresh and certain enough. */
  function Expected(quote: Option<Quote>, at: nat, now: int): Result<Quote> {
    if quote.None? then Err(PriceUnavailable)
    else if !(0 < quote.value.price <= I64_MAX && 0 < quote.value.confidence <= I64_MAX) then Err(PriceUnavailable)
    else if now - at > 60 then Err(StalePrice)
    else if quote.value.confidence * 200 > quote.value.price then Err(PriceUncertain)
    else Ok(quote.value)
  }

  lemma Reads16(value: u16, rest: Bytes)
    ensures ReadU16(Bytes16(value) + rest) == Ok((value, rest))
  {
    assert (Bytes16(value) + rest)[2..] == rest;
  }

  lemma Reads32(value: u32, rest: Bytes)
    ensures ReadU32(Bytes32(value) + rest) == Ok((value, rest))
  {
    var s := Bytes32(value) + rest;
    assert s[2..] == Bytes16(value / 0x1_0000) + rest;
    assert s[4..] == rest;
  }

  lemma Reads64(value: u64, rest: Bytes)
    ensures ReadU64(Bytes64(value) + rest) == Ok((value, rest))
  {
    var s := Bytes64(value) + rest;
    assert s == Bytes32(value % 0x1_0000_0000) + (Bytes32(value / 0x1_0000_0000) + rest);
    Reads32(value % 0x1_0000_0000, Bytes32(value / 0x1_0000_0000) + rest);
    Reads32(value / 0x1_0000_0000, rest);
    assert s[8..] == rest;
  }

  /** The feed a written quote reads as. */
  function WrittenFeed(quote: Quote, micros: u64): Feed {
    Feed(
      if quote.price == 0 then None else Some(SignedI64(quote.price)),
      if quote.confidence == 0 then None else Some(SignedI64(quote.confidence)),
      Some(quote.exponent), Some(micros))
  }

  /** A written feed's four properties, with what follows them. */
  function PropertiesBytes(quote: Quote, micros: u64, rest: Bytes): Bytes {
    [0] + (Bytes64(quote.price) + ([4] + (Bytes16(UnsignedI16(quote.exponent))
    + ([5] + (Bytes64(quote.confidence) + ([12, 1] + (Bytes64(micros) + rest)))))))
  }

  lemma ReadsProperties(quote: Quote, micros: u64, rest: Bytes)
    ensures ReadProperties(PropertiesBytes(quote, micros, rest), 4, NO_FEED) == Ok((WrittenFeed(quote, micros), rest))
  {
    hide ReadU64, ReadU16, Bytes64, Bytes16;
    var s7 := Bytes64(micros) + rest;
    var s6 := [12, 1] + s7;
    var s5 := Bytes64(quote.confidence) + s6;
    var s4 := [5] + s5;
    var s3 := Bytes16(UnsignedI16(quote.exponent)) + s4;
    var s2 := [4] + s3;
    var s1 := Bytes64(quote.price) + s2;
    var s0 := [0] + s1;
    assert s0[1..] == s1 && s2[1..] == s3 && s4[1..] == s5 && s6[1..][1..] == s7;
    Reads64(quote.price, s2);
    Reads16(UnsignedI16(quote.exponent), s4);
    Reads64(quote.confidence, s6);
    Reads64(micros, rest);
    var f1 := NO_FEED.(price := WrittenFeed(quote, micros).price);
    var f2 := f1.(exponent := Some(quote.exponent));
    var f3 := f2.(confidence := WrittenFeed(quote, micros).confidence);
    assert ReadProperty(s0, NO_FEED) == Ok((f1, s2));
    assert ReadProperty(s2, f1) == Ok((f2, s4));
    assert ReadProperty(s4, f2) == Ok((f3, s6));
    assert ReadProperty(s6, f3) == Ok((WrittenFeed(quote, micros), rest));
    assert ReadProperties(rest, 0, WrittenFeed(quote, micros)) == Ok((WrittenFeed(quote, micros), rest));
    assert ReadProperties(s6, 1, f3) == Ok((WrittenFeed(quote, micros), rest));
    assert ReadProperties(s4, 2, f2) == Ok((WrittenFeed(quote, micros), rest));
    assert ReadProperties(s2, 3, f1) == Ok((WrittenFeed(quote, micros), rest));
  }

  lemma {:induction false} ReadsFeeds(feeds: seq<(u32, Quote)>, micros: u64, feedId: u32)
    ensures ReadFeeds(FeedsBytes(feeds, micros), |feeds|, feedId)
            == Ok(if FirstOf(feeds, feedId).None? then None
                  else Some(WrittenFeed(FirstOf(feeds, feedId).value, micros)))
  {
    hide ReadProperties, ReadU32, Bytes32, Bytes64, Bytes16, FeedBytes;
    if feeds != [] {
      var (id, quote) := feeds[0];
      var rest := FeedsBytes(feeds[1..], micros);
      FeedBytesAre(id, quote, micros, rest);
      Reads32(id, [4] + PropertiesBytes(quote, micros, rest));
      assert ([4] + PropertiesBytes(quote, micros, rest))[1..] == PropertiesBytes(quote, micros, rest);
      ReadsProperties(quote, micros, rest);
      ReadsFeeds(feeds[1..], micros, feedId);
    }
  }

  lemma FeedBytesAre(id: u32, quote: Quote, micros: u64, rest: Bytes)
    ensures FeedBytes(id, quote, micros) + rest == Bytes32(id) + ([4] + PropertiesBytes(quote, micros, rest))
  {
    hide Bytes32, Bytes64, Bytes16;
  }

  /** Reading back an update gives the first entry of the wanted feed, or the reason it is not usable; an update
      without the feed has no price. */
  lemma UpdatesReadBack(envelope: Bytes, at: nat, feeds: seq<(u32, Quote)>, feedId: u32, now: int)
    requires |envelope| == 96 && at * 1_000_000 <= U64_MAX && |feeds| <= 255 && feedId != 0
    ensures QuoteOf(PythUpdate(envelope, at, feeds), feedId, now) == Expected(FirstOf(feeds, feedId), at, now)
  {
    hide ReadFeeds, FeedsBytes, Bytes32, Bytes64, Bytes16, ReadU32, ReadU16, FeedQuote;
    var micros := at * 1_000_000;
    FeedsLength(feeds, micros);
    ReadsFeeds(feeds, micros, feedId);
    var payload := PayloadBytes(micros, |feeds|, FeedsBytes(feeds, micros));
    PayloadLength(micros, |feeds|, FeedsBytes(feeds, micros));
    ReadsPayload(envelope, payload);
    ReadsFeedCount(micros, |feeds|, FeedsBytes(feeds, micros), feedId);
    WrittenQuote(FirstOf(feeds, feedId), at, now);
  }

  lemma PayloadLength(micros: u64, count: u8, feeds: Bytes)
    ensures |PayloadBytes(micros, count, feeds)| == 14 + |feeds|
  {
  }

  lemma ReadsPayload(envelope: Bytes, payload: Bytes)
    requires |envelope| == 96 && |payload| <= U16_MAX
    ensures Payload(Bytes32(SOLANA_FORMAT_MAGIC) + (envelope + (Bytes16(|payload|) + payload))) == Ok(payload)
  {
    hide Bytes32, Bytes16, ReadU32, ReadU16;
    Reads32(SOLANA_FORMAT_MAGIC, envelope + (Bytes16(|payload|) + payload));
    assert (envelope + (Bytes16(|payload|) + payload))[96..] == Bytes16(|payload|) + payload;
    Reads16(|payload|, payload);
  }

  lemma ReadsFeedCount(micros: u64, count: u8, feeds: Bytes, feedId: u32)
    ensures FindFeed(PayloadBytes(micros, count, feeds), feedId) == ReadFeeds(feeds, count, feedId)
  {
    hide ReadFeeds, Bytes32, Bytes64, ReadU32;
    var s := Bytes64(micros) + ([3, count] + feeds);
    Reads32(PAYLOAD_FORMAT_MAGIC, s);
    Reads64(micros, [3, count] + feeds);
    Length64(micros);
    assert s[9..] == [count] + feeds;
    assert ([count] + feeds)[1..] == feeds;
  }

  lemma Length64(value: u64)
    ensures |Bytes64(value)| == 8
  {
  }

  /** A written quote reads as expected of it. */
  lemma WrittenQuote(quote: Option<Quote>, at: nat, now: int)
    requires at * 1_000_000 <= U64_MAX
    ensures FeedQuote(if quote.Some? then Some(WrittenFeed(quote.value, at * 1_000_000)) else None, now,
                      MAX_PRICE_AGE_SECONDS)
            == Expected(quote, at, now)
  {
    assert at * 1_000_000 / 1_000_000 == at;
  }
}
