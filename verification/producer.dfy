/**
  The producer: builds `num_messages` work items from injected random draws
  and publishes each one, persistently, to the SMS queue.
 */
module Producer {
  import opened Json

  /** The queue the producer publishes to (hard-coded in the producer). */
  const QueueName: string := "sms_queue"
  /** AMQP delivery mode 2: the broker persists the message. */
  const PersistentDeliveryMode: int := 2
  /** Bounds of `random.randint` for the phone number. */
  const PhoneMin: int := 1000000000
  const PhoneMax: int := 9999999999
  /** `string.ascii_lowercase`, `string.ascii_uppercase` and `string.digits`. */
  const Lowercase: string := CharRange('a', 26)
  const Uppercase: string := CharRange('A', 26)
  const Digits: string := CharRange('0', 10)
  /** `string.ascii_letters + string.digits`: the 62 characters a message is drawn from. */
  const Alphabet: string := Lowercase + Uppercase + Digits
  /** `k` of `random.choices`. */
  const MessageLength: nat := 100

  /** A draw of `random.randint(PhoneMin, PhoneMax)`. */
  type PhoneDraw = n: int | 1000000000 <= n <= 9999999999 witness 1000000000
  /** A draw of an index into the alphabet. */
  type CharDraw = i: int | 0 <= i < 62
  /** The 100 index draws behind one `random.choices(..., k=100)`. */
  type MessageDraw = s: seq<CharDraw> | |s| == 100 witness seq(100, _ => 0)

  /** The draws one loop iteration consumes. */
  datatype Draw = Draw(phone: PhoneDraw, chars: MessageDraw)

  /** One `basic_publish` call. */
  datatype Publish = Publish(exchange: string, routingKey: string, body: Text, deliveryMode: int)

  /** The `count` consecutive ASCII characters starting at `first`. */
  function CharRange(first: char, count: nat): (s: string)
    requires (first as int) + count <= 128
    ensures |s| == count
    ensures forall i :: 0 <= i < count ==> s[i] as int == (first as int) + i
    decreases count
  {
    if count == 0 then []
    else CharRange(first, count - 1) + [((first as int) + count - 1) as char]
  }

  predicate IsDigit(c: char) {
    '0' <= c <= '9'
  }

  predicate IsAsciiAlnum(c: char) {
    ('a' <= c <= 'z') || ('A' <= c <= 'Z') || IsDigit(c)
  }

  predicate AllDigits(s: string) {
    forall i :: 0 <= i < |s| ==> IsDigit(s[i])
  }

  function Pow10(k: nat): (p: nat)
    ensures p >= 1
  {
    if k == 0 then 1 else 10 * Pow10(k - 1)
  }

  /** The character of one decimal digit. */
  function DigitChar(d: int): (c: char)
    requires 0 <= d < 10
    ensures IsDigit(c) && (c as int) - ('0' as int) == d
  {
    (('0' as int) + d) as char
  }

  /** Python's `str(n)` for a non-negative integer: its decimal digits, most significant first. */
  function Decimal(n: nat): (s: string)
    ensures |s| >= 1 && AllDigits(s)
    ensures n >= 10 ==> s[0] != '0'
    decreases n
  {
    if n < 10 then [DigitChar(n)]
    else Decimal(n / 10) + [DigitChar(n % 10)]
  }

  /** The value of a string of decimal digits: the independent reading of `Decimal`. */
  function ParseDecimal(s: string): nat
    requires AllDigits(s)
    decreases |s|
  {
    if s == [] then 0
    else 10 * ParseDecimal(s[..|s| - 1]) + ((s[|s| - 1] as int) - ('0' as int))
  }

  /** Reading the decimal form back gives the number it was written from. */
  lemma {:induction false} DecimalRoundTrip(n: nat)
    ensures ParseDecimal(Decimal(n)) == n
    decreases n
  {
    var s := Decimal(n);
    if n >= 10 {
      DecimalRoundTrip(n / 10);
      assert s[..|s| - 1] == Decimal(n / 10);
    }
  }

  /** A number with k digits (no leading zero) prints as exactly k characters. */
  lemma {:induction false} DecimalLength(n: nat, k: nat)
    requires k >= 1 && Pow10(k - 1) <= n < Pow10(k)
    ensures |Decimal(n)| == k
    decreases k
  {
    if k > 1 {
      DecimalLength(n / 10, k - 1);
    }
  }

  /** `f"+{random.randint(1000000000, 9999999999)}"`. */
  function PhoneNumber(d: PhoneDraw): (p: string)
    ensures |p| == 11 && p[0] == '+'
    ensures AllDigits(p[1..]) && p[1] != '0'
    ensures ParseDecimal(p[1..]) == d
  {
    assert Pow10(9) == PhoneMin && Pow10(10) == PhoneMax + 1;
    DecimalLength(d, 10);
    DecimalRoundTrip(d);
    var p := "+" + Decimal(d);
    assert p[1..] == Decimal(d);
    p
  }

  /** `''.join(random.choices(alphabet, k=100))`. */
  function Message(chars: MessageDraw): (m: string)
    ensures |m| == MessageLength
    ensures forall i :: 0 <= i < |m| ==> m[i] == Alphabet[chars[i]] && IsAsciiAlnum(m[i])
  {
    var m := seq(|chars|, i requires 0 <= i < |chars| => Alphabet[chars[i]]);
    assert forall i :: 0 <= i < |m| ==> IsAsciiAlnum(m[i]) by {
      forall i | 0 <= i < |m| {
        AlphabetIsAsciiAlnum(m[i]);
      }
    }
    m
  }

  /** The code of the alphabet character at each index. */
  lemma AlphabetAt(j: int)
    requires 0 <= j < 62
    ensures |Alphabet| == 62
    ensures j < 26 ==> Alphabet[j] as int == ('a' as int) + j
    ensures 26 <= j < 52 ==> Alphabet[j] as int == ('A' as int) + (j - 26)
    ensures 52 <= j ==> Alphabet[j] as int == ('0' as int) + (j - 52)
  {
    assert Alphabet == Lowercase + Uppercase + Digits;
    if j < 26 {
      assert Alphabet[j] == Lowercase[j];
    } else if j < 52 {
      assert Alphabet[j] == Uppercase[j - 26];
    } else {
      assert Alphabet[j] == Digits[j - 52];
    }
  }

  /** Every ASCII letter and digit is in the alphabet, and nothing else is. */
  lemma AlphabetIsAsciiAlnum(c: char)
    ensures c in Alphabet <==> IsAsciiAlnum(c)
  {
    if IsAsciiAlnum(c) {
      var j := if 'a' <= c <= 'z' then (c as int) - ('a' as int)
               else if 'A' <= c <= 'Z' then 26 + (c as int) - ('A' as int)
               else 52 + (c as int) - ('0' as int);
      AlphabetAt(j);
      assert Alphabet[j] == c;
    }
    if c in Alphabet {
      AlphabetAt(0);
      var j :| 0 <= j < |Alphabet| && Alphabet[j] == c;
      AlphabetAt(j);
    }
  }

  /** `json.dumps({"phone_number": ..., "message": ...})`. */
  function EncodeBody(phone: string, message: string): (t: Text)
    ensures t.Doc? && t.fields.Keys == {"phone_number", "message"}
    ensures t.fields["phone_number"] == Str(phone) && t.fields["message"] == Str(message)
  {
    Doc(map["phone_number" := Str(phone), "message" := Str(message)])
  }

  /** A plus sign and ten digits, the first non-zero: a value of the phone draw range. */
  predicate IsPhoneNumber(p: string) {
    && |p| == 11 && p[0] == '+' && p[1] != '0' && AllDigits(p[1..])
    && PhoneMin <= ParseDecimal(p[1..]) <= PhoneMax
  }

  /** A hundred ASCII letters and digits. */
  predicate IsMessage(m: string) {
    |m| == MessageLength && forall i :: 0 <= i < |m| ==> IsAsciiAlnum(m[i])
  }

  /** What every produced body looks like, stated without reference to the draws. */
  predicate WellFormedBody(t: Text) {
    && t.Doc? && t.fields.Keys == {"phone_number", "message"}
    && t.fields["phone_number"].Str? && t.fields["message"].Str?
    && IsPhoneNumber(t.fields["phone_number"].s)
    && IsMessage(t.fields["message"].s)
  }

  /** The publish of one loop iteration. */
  function PublishFor(d: Draw): (p: Publish)
    ensures p.exchange == "" && p.routingKey == QueueName
    ensures p.deliveryMode == PersistentDeliveryMode
    ensures WellFormedBody(p.body)
  {
    Publish("", QueueName, EncodeBody(PhoneNumber(d.phone), Message(d.chars)), PersistentDeliveryMode)
  }

  /**
    `produce_messages`: one publish per iteration of `range(num_messages)`
    (none when the count is not positive), iteration i using the i-th draw.
   */
  method ProduceMessages(numMessages: int, draws: seq<Draw>) returns (published: seq<Publish>)
    requires numMessages <= |draws|
    ensures |published| == if numMessages > 0 then numMessages else 0
    ensures forall i :: 0 <= i < |published| ==>
              && published[i].body == EncodeBody(PhoneNumber(draws[i].phone), Message(draws[i].chars))
              && published[i].exchange == "" && published[i].routingKey == QueueName
              && published[i].deliveryMode == PersistentDeliveryMode
              && WellFormedBody(published[i].body)
  {
    published := [];
    var k := 0;
    while k < numMessages
      invariant 0 <= k <= (if numMessages > 0 then numMessages else 0)
      invariant |published| == k
      invariant forall i :: 0 <= i < k ==> published[i] == PublishFor(draws[i])
    {
      published := published + [PublishFor(draws[k])];
      k := k + 1;
    }
  }
}
