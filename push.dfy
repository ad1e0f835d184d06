/** `pushAll`: hands one message to every push channel a device configures.
    A delivery is recorded as the message the sender is given; the senders
    themselves (the Bark client and the Feishu bot) are outside the model. */
module Push {

  /** One push configuration of a device. A field the configuration leaves
      out is the empty string here: the source only ever asks whether a
      field is null or empty, and treats both alike. */
  datatype PushConfig = PushConfig(
    barkPushUrl: string,
    barkPushToken: string,
    barkPushSound: string,
    feishuBotSecret: string,
    feishuBotWebhooks: string)

  /** The Bark notification built for a message. */
  datatype BarkDetails = BarkDetails(title: string, body: string, category: string, group: string, sound: string)

  /** `FeiShuPushDTO`: the text and the bot it goes to. */
  datatype FeiShuPushDTO = FeiShuPushDTO(text: string, botWebHooks: string, secret: string)

  /** An attempted delivery. */
  datatype Delivery =
    | Bark(url: string, token: string, details: BarkDetails)
    | FeiShu(message: FeiShuPushDTO)

  const PushTitle := "苹果商店监控"
  const PushGroup := "Apple Monitor"
  /** The sound name of `SoundEnum.GLASS` in the Bark client. */
  const GlassSound := "glass"

  /** Bark is configured when both its URL and its token are non-empty. */
  predicate BarkReady(c: PushConfig)
  {
    c.barkPushUrl != "" && c.barkPushToken != ""
  }

  /** Feishu is configured when both its secret and its webhook are non-empty. */
  predicate FeiShuReady(c: PushConfig)
  {
    c.feishuBotSecret != "" && c.feishuBotWebhooks != ""
  }

  /** The configured Bark sound, or GLASS when none is configured. */
  function BarkSound(c: PushConfig): (sound: string)
    ensures sound != ""
    ensures c.barkPushSound != "" ==> sound == c.barkPushSound
    ensures c.barkPushSound == "" ==> sound == GlassSound
  {
    if c.barkPushSound == "" then GlassSound else c.barkPushSound
  }

  /** The Bark notification sent for `content` through configuration `c`. */
  function BarkDelivery(content: string, c: PushConfig): Delivery
  {
    Bark(c.barkPushUrl, c.barkPushToken, BarkDetails(PushTitle, content, PushTitle, PushGroup, BarkSound(c)))
  }

  /** The Feishu message sent for `content` through configuration `c`. */
  function FeiShuDelivery(content: string, c: PushConfig): Delivery
  {
    FeiShu(FeiShuPushDTO(content, c.feishuBotWebhooks, c.feishuBotSecret))
  }

  /** The deliveries one configuration makes: Bark first when it is ready,
      then Feishu when it is ready; an incomplete channel is skipped. */
  function ConfigDeliveries(content: string, c: PushConfig): (ds: seq<Delivery>)
    ensures |ds| == (if BarkReady(c) then 1 else 0) + (if FeiShuReady(c) then 1 else 0)
    ensures forall d :: d in ds <==>
      (BarkReady(c) && d == BarkDelivery(content, c)) || (FeiShuReady(c) && d == FeiShuDelivery(content, c))
    ensures BarkReady(c) ==> ds[0] == BarkDelivery(content, c)
  {
    (if BarkReady(c) then [BarkDelivery(content, c)] else [])
      + (if FeiShuReady(c) then [FeiShuDelivery(content, c)] else [])
  }

  /** The deliveries of a whole configuration list, configuration by
      configuration in list order. */
  function Deliveries(content: string, configs: seq<PushConfig>): seq<Delivery>
  {
    if configs == [] then []
    else Deliveries(content, configs[..|configs| - 1]) + ConfigDeliveries(content, configs[|configs| - 1])
  }

  /** The number of channels ready across a configuration list. */
  function ReadyChannels(configs: seq<PushConfig>): nat
  {
    if configs == [] then 0
    else
      var last := configs[|configs| - 1];
      ReadyChannels(configs[..|configs| - 1]) + (if BarkReady(last) then 1 else 0) + (if FeiShuReady(last) then 1 else 0)
  }

  /** `pushAll(content, pushConfigs)`: goes through the configurations in
      order and attempts every ready channel of each. */
  method PushAll(content: string, configs: seq<PushConfig>) returns (sent: seq<Delivery>)
    ensures sent == Deliveries(content, configs)
  {
    sent := [];
    var i := 0;
    while i < |configs|
      invariant 0 <= i <= |configs|
      invariant sent == Deliveries(content, configs[..i])
    {
      var c := configs[i];
      if BarkReady(c) {
        sent := sent + [BarkDelivery(content, c)];
      }
      if FeiShuReady(c) {
        sent := sent + [FeiShuDelivery(content, c)];
      }
      assert configs[..i + 1][..i] == configs[..i];
      i := i + 1;
    }
    assert configs[..i] == configs;
  }

  /** Delivering to two lists one after the other is delivering to their
      concatenation: the order of the configurations is kept. */
  lemma {:induction false} DeliveriesAppend(content: string, a: seq<PushConfig>, b: seq<PushConfig>)
    ensures Deliveries(content, a + b) == Deliveries(content, a) + Deliveries(content, b)
    decreases |b|
  {
    if b == [] {
      assert a + b == a;
    } else {
      var b' := b[..|b| - 1];
      assert (a + b)[..|a + b| - 1] == a + b';
      assert (a + b)[|a + b| - 1] == b[|b| - 1];
      DeliveriesAppend(content, a, b');
    }
  }

  /** Exactly one delivery per ready channel, each carrying the message. */
  lemma {:induction false} DeliveriesCount(content: string, configs: seq<PushConfig>)
    ensures |Deliveries(content, configs)| == ReadyChannels(configs)
    ensures forall d :: d in Deliveries(content, configs) ==>
      (d.Bark? && d.details.body == content) || (d.FeiShu? && d.message.text == content)
  {
    if configs != [] {
      DeliveriesCount(content, configs[..|configs| - 1]);
    }
  }

  /** A delivery is attempted exactly when it is one of the deliveries of
      some configuration in the list. */
  lemma {:induction false} DeliveriesByConfig(content: string, configs: seq<PushConfig>)
    ensures forall d :: d in Deliveries(content, configs) <==>
      exists i :: 0 <= i < |configs| && d in ConfigDeliveries(content, configs[i])
  {
    if configs != [] {
      var init := configs[..|configs| - 1];
      DeliveriesByConfig(content, init);
      assert Deliveries(content, configs) == Deliveries(content, init) + ConfigDeliveries(content, configs[|configs| - 1]);
      assert forall i :: 0 <= i < |init| ==> init[i] == configs[i];
    }
  }
}
