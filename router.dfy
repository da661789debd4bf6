/**
 * The routing decision of `distrubute`: a message is a rate command when the
 * whole message starts with the lower-case literal "exchange" and splits into
 * at least two words; anything else is chat.
 */
module Router {
  import opened Text

  const Keyword := "exchange"

  datatype Route =
    | Command(code: string)   // reply with the quote for `code`, to the sender only
    | Chat(text: string)      // broadcast `<name>: <text>` to every client

  function Classify(message: string): (d: Route)
    ensures d.Chat? ==> d.text == message
    ensures d.Command? ==> IsWord(d.code)
  {
    var words := Split(message);
    if StartsWith(message, Keyword) && |words| > 1 then
      Command(Upper(words[1]))
    else Chat(message)
  }

  /**
   * A first word that begins with "exchange" (the test is a prefix test on the
   * whole message, so "exchangeX" qualifies), any run of whitespace, and a
   * second word make a command for the upper-cased second word, whatever
   * comes after.
   */
  lemma CommandOfTwoWords(first: string, sep: string, code: string, tail: string)
    requires IsWord(first) && IsWord(code) && StartsWith(first, Keyword)
    requires |sep| > 0 && forall i :: 0 <= i < |sep| ==> IsSpace(sep[i])
    requires tail == [] || IsSpace(tail[0])
    ensures Classify(first + sep + code + tail) == Command(Upper(code))
  {
    var rest := code + tail;
    var after := sep + rest;
    var m := first + sep + code + tail;
    assert m == first + after;
    assert after[0] == sep[0];
    SplitWord(first, after);
    SplitSkipsSpaces(sep, rest);
    SplitWord(code, tail);
    var words := Split(m);
    assert words == [first] + ([code] + Split(tail));
    assert |words| > 1 && words[1] == code;
    assert StartsWith(m, Keyword) by {
      assert m[..|Keyword|] == first[..|Keyword|];
    }
  }

  /** A message that does not start with the exact lower-case keyword is chat. */
  lemma ChatWithoutKeyword(message: string)
    requires !StartsWith(message, Keyword)
    ensures Classify(message) == Chat(message)
  {
  }

  /** One word followed only by whitespace (a bare "exchange") is chat, not a command. */
  lemma ChatOfOneWord(word: string, pad: string)
    requires IsWord(word)
    requires forall i :: 0 <= i < |pad| ==> IsSpace(pad[i])
    ensures Classify(word + pad) == Chat(word + pad)
  {
    SplitWord(word, pad);
    assert pad + [] == pad;
    SplitSkipsSpaces(pad, []);
  }

  /** "exchange usd" asks for the USD quote. */
  lemma CommandExample()
    ensures Classify("exchange usd") == Command("USD")
  {
    UpperUsd();
    CommandOfTwoWords("exchange", " ", "usd", "");
    assert "exchange" + " " + "usd" + "" == "exchange usd";
  }

  /** The prefix test also accepts a longer first word: "exchangeX usd" is a command. */
  lemma GluedCommandExample()
    ensures Classify("exchangeX usd") == Command("USD")
  {
    UpperUsd();
    CommandOfTwoWords("exchangeX", " ", "usd", "");
    assert "exchangeX" + " " + "usd" + "" == "exchangeX usd";
  }

  /** Any whitespace separates the words: "exchange<TAB>usd" is a command. */
  lemma TabCommandExample()
    ensures Classify("exchange\tusd") == Command("USD")
  {
    UpperUsd();
    CommandOfTwoWords("exchange", "\t", "usd", "");
    assert "exchange" + "\t" + "usd" + "" == "exchange\tusd";
  }

  /** Chat as the prefix test decides it: the wrong case, or the keyword alone. */
  lemma ChatExamples()
    ensures Classify("Exchange usd") == Chat("Exchange usd")
    ensures Classify("exchange") == Chat("exchange")
  {
    assert !StartsWith("Exchange usd", Keyword) by {
      assert "Exchange usd"[0] != Keyword[0];
    }
    ChatOfOneWord("exchange", "");
    assert "exchange" + "" == "exchange";
  }

  lemma UpperUsd()
    ensures Upper("usd") == "USD"
  {
    var usd := Upper("usd");
    assert usd[0] == 'U' && usd[1] == 'S' && usd[2] == 'D';
  }
}
