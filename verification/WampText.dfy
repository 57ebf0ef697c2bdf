/** The texts the WAMP handler sends, read as the JSON arrays they are meant to be. */
module WampText {
  import opened Outcomes
  import Decimal
  import opened JsonArrays

  datatype WampMessageType = Call | CallResult | CallError | Subscribe | Unsubscribe | Event

  function Code(t: WampMessageType): nat {
    match t
    case Call => 2
    case CallResult => 3
    case CallError => 4
    case Subscribe => 5
    case Unsubscribe => 6
    case Event => 8
  }

  // ---------- the texts ----------

  /** The fold over the arguments: `, "a", "b"`; there is always at least one. */
  function ArgumentList(args: seq<string>): string
    requires |args| > 0
  {
    if |args| == 1 then ", \"" + args[0] + "\""
    else (", \"" + args[0] + "\"") + ArgumentList(args[1..])
  }

  function CallText(id: string, func: string, args: seq<string>): string
    requires |args| > 0
  {
    "[" + Decimal.Print(Code(Call)) + ", \"" + id + "\", \"" + func + "\"" + ArgumentList(args) + "]"
  }

  /** The overload without arguments: it carries the SUBSCRIBE code. */
  function CallTextWithoutArguments(id: string, func: string): string {
    "[" + Decimal.Print(Code(Subscribe)) + ", \"" + id + "\", \"" + func + "\"]"
  }

  /** The closing bracket is missing. */
  function SubscribeText(event: string): string {
    "[" + Decimal.Print(Code(Subscribe)) + ", \"" + event + "\""
  }

  function UnsubscribeText(event: string): string {
    "[" + Decimal.Print(Code(Unsubscribe)) + ", \"" + event + "\""
  }

  lemma {:induction false} ArgumentListIsClosing(args: seq<string>)
    requires |args| > 0
    ensures ArgumentList(args) + "]" == Closing(args)
  {
    var first := ", \"" + args[0] + "\"";
    if |args| > 1 {
      ArgumentListIsClosing(args[1..]);
      assert first + ArgumentList(args[1..]) + "]" == first + (ArgumentList(args[1..]) + "]");
    } else {
      assert Closing(args[1..]) == "]";
    }
  }

  lemma CallTextIsRendered(id: string, func: string, args: seq<string>)
    requires |args| > 0
    ensures CallText(id, func, args) == Render(Code(Call), [id, func] + args)
  {
    ArgumentListIsClosing(args);
    ClosingOfTwo(id, func, args);
    var start := "[" + Decimal.Print(Code(Call));
    var two := ", \"" + id + "\", \"" + func + "\"";
    assert CallText(id, func, args) == start + (two + (ArgumentList(args) + "]"));
  }

  lemma ClosingOfTwo(a: string, b: string, texts: seq<string>)
    ensures Closing([a, b] + texts) == ", \"" + a + "\", \"" + b + "\"" + Closing(texts)
  {
    assert ([a, b] + texts)[1..] == [b] + texts;
    assert ([b] + texts)[1..] == texts;
  }

  /**
   The call message says what was asked for exactly when neither the id, nor the function, nor an
   argument holds a quote, a backslash or a control character.
   */
  lemma CallRoundTrip(id: string, func: string, args: seq<string>)
    requires |args| > 0
    ensures Parse(CallText(id, func, args)) == Some([Number(2), Text(id), Text(func)] + TextItems(args))
            <==> Plain(id) && Plain(func) && AllPlain(args)
  {
    CallTextIsRendered(id, func, args);
    RenderRoundTrip(Code(Call), [id, func] + args);
    CallItems(id, func, args);
    AllPlainOfCall(id, func, args);
  }

  lemma CallItems(id: string, func: string, args: seq<string>)
    ensures [Number(2)] + TextItems([id, func] + args) == [Number(2), Text(id), Text(func)] + TextItems(args)
  {
  }

  lemma AllPlainOfCall(id: string, func: string, args: seq<string>)
    ensures AllPlain([id, func] + args) <==> Plain(id) && Plain(func) && AllPlain(args)
  {
    var texts := [id, func] + args;
    assert texts[0] == id && texts[1] == func;
    assert forall i | 0 <= i < |args| :: args[i] == texts[i + 2];
  }

  /** A caller that escapes its strings gets every call through, whatever the strings are. */
  lemma EscapedCallRoundTrip(id: string, func: string, args: seq<string>)
    requires |args| > 0
    ensures Parse(CallText(Escaped(id), Escaped(func), AllEscaped(args))) ==
            Some([Number(2), Text(id), Text(func)] + TextItems(args))
  {
    var raws := [Escaped(id), Escaped(func)] + AllEscaped(args);
    var texts := [id, func] + args;
    forall i, rest | 0 <= i < |raws|
      ensures ParseText(raws[i] + "\"" + rest) == Some((texts[i], rest))
    {
      EscapedTextIsRead(texts[i], rest);
    }
    CallTextIsRendered(Escaped(id), Escaped(func), AllEscaped(args));
    RenderIsRead(Code(Call), raws, texts);
    CallItems(id, func, args);
  }

  /** Two calls that need no escape are told apart by their texts. */
  lemma CallTextIsInjective(id: string, func: string, args: seq<string>, id': string, func': string, args': seq<string>)
    requires |args| > 0 && Plain(id) && Plain(func) && AllPlain(args)
    requires |args'| > 0 && Plain(id') && Plain(func') && AllPlain(args')
    requires CallText(id, func, args) == CallText(id', func', args')
    ensures id == id' && func == func' && args == args'
  {
    CallRoundTrip(id, func, args);
    CallRoundTrip(id', func', args');
    var items := [Number(2), Text(id), Text(func)] + TextItems(args);
    var items' := [Number(2), Text(id'), Text(func')] + TextItems(args');
    assert items[1] == items'[1] && items[2] == items'[2];
    assert items[3..] == TextItems(args) && items'[3..] == TextItems(args');
    forall i | 0 <= i < |args|
      ensures args[i] == args'[i]
    {
      assert TextItems(args)[i] == TextItems(args')[i];
    }
  }

  /** The overload without arguments never says CALL: what it says is a subscription with two strings. */
  lemma CallWithoutArgumentsSubscribes(id: string, func: string)
    ensures Parse(CallTextWithoutArguments(id, func)) == Some([Number(5), Text(id), Text(func)])
            <==> Plain(id) && Plain(func)
    ensures var r := Parse(CallTextWithoutArguments(id, func));
            r.Some? ==> |r.value| > 0 && r.value[0] == Number(5)
  {
    var texts := [id, func];
    ClosingOfTwo(id, func, []);
    assert texts + [] == texts;
    assert CallTextWithoutArguments(id, func) == Render(5, texts);
    RenderRoundTrip(5, texts);
    assert [Number(5)] + TextItems(texts) == [Number(5), Text(id), Text(func)];
    assert texts[0] == id && texts[1] == func;
  }

  /**
   Whatever the event name, the subscription texts are no JSON array as sent; the bracket they lack
   makes them say what was meant exactly when the name is plain.
   */
  lemma SubscriptionLacksItsBracket(event: string)
    ensures Parse(SubscribeText(event)).None? && Parse(UnsubscribeText(event)).None?
    ensures Parse(SubscribeText(event) + "]") == Some([Number(5), Text(event)]) <==> Plain(event)
    ensures Parse(UnsubscribeText(event) + "]") == Some([Number(6), Text(event)]) <==> Plain(event)
  {
    ArrayEndsWithBracket(SubscribeText(event));
    ArrayEndsWithBracket(UnsubscribeText(event));
    RenderOfOne(5, event);
    RenderOfOne(6, event);
  }
}
