/**
 * Daily weather pushes: `/set_weather_updates LOCATION HH:MM` registers a daily job that carries the
 * location and the chat in its data; when it fires, the weather text for that location is sent.
 * The weather lookup itself (an HTTP call) is the parameter `getWeather`.
 */
module Weather {
  import opened Wrappers
  import opened Text
  import opened Clock
  import opened Jobs

  const UsageReply := "Usage: /set_weather_updates [location] [HH:MM] UTC"

  function WeatherJobName(userId: int): string { "weather_update_" + IntToString(userId) }

  /** The job data `{"location": location, "chat_id": chat_id}`. */
  function WeatherData(location: string, chatId: int): Data
  {
    map["location" := StrVal(location), "chat_id" := IntVal(chatId)]
  }

  function WeatherJob(userId: int, chatId: int, location: string, utc: TimeOfDay): Job
  {
    Job(SendDailyWeather, Daily(utc), chatId, WeatherJobName(userId), WeatherData(location, chatId), false)
  }

  /**
   * `set_weather_updates` with the command's arguments `args`: the location is `args[0]` and the
   * time `args[1]`; further arguments are ignored. Fewer than two arguments (IndexError) or an
   * unparsable time (ValueError) give the usage text and register nothing.
   */
  method SetWeatherUpdates(q: JobQueue, args: seq<string>, userId: int, chatId: int, offsetMinutes: int)
    returns (reply: string)
    modifies q
    ensures (|args| < 2 || ParseClock(args[1]).None?) ==> q.jobs == old(q.jobs) && reply == UsageReply
    ensures |args| >= 2 && ParseClock(args[1]).Some? ==>
              && q.jobs == old(q.jobs) + [WeatherJob(userId, chatId, args[0], ToUtc(ParseClock(args[1]).value, offsetMinutes))]
              && reply == "Weather updates set for " + args[0] + " daily at " + args[1] + " (UTC)."
    ensures ForeignUpdate(old(q.jobs), q.jobs)
  {
    if |args| < 2 {
      reply := UsageReply;
      return;
    }
    var location, timeStr := args[0], args[1];
    var userTime := ParseClock(timeStr);
    if userTime.None? {
      reply := UsageReply;
      return;
    }
    var utcTime := ToUtc(userTime.value, offsetMinutes);
    var _ := q.RunDaily(SendDailyWeather, utcTime, chatId, WeatherJobName(userId), WeatherData(location, chatId));
    reply := "Weather updates set for " + location + " daily at " + timeStr + " (UTC).";
  }

  /**
   * `send_daily_weather` for a job with data `data`: the weather text for `data["location"]` goes
   * to `data["chat_id"]`. A missing or ill-typed entry raises inside the callback's own
   * try-block, so nothing is sent and the job itself is unaffected.
   */
  function DailyWeatherMessage(data: Data, getWeather: string -> string): (sent: Option<Message>)
    ensures sent.Some? <==> "location" in data && data["location"].StrVal? && "chat_id" in data && data["chat_id"].IntVal?
  {
    if "location" in data && data["location"].StrVal? && "chat_id" in data && data["chat_id"].IntVal? then
      Some(Message(data["chat_id"].i, getWeather(data["location"].s)))
    else None
  }

  /** The job registered for `location` and `chatId` sends that chat the weather of that location. */
  lemma SubscriptionDelivers(userId: int, chatId: int, location: string, utc: TimeOfDay, getWeather: string -> string)
    ensures DailyWeatherMessage(WeatherJob(userId, chatId, location, utc).data, getWeather)
         == Some(Message(chatId, getWeather(location)))
    ensures WeatherJob(userId, chatId, location, utc).chatId == chatId
  {
  }

  /** A message `LOCATION HH:MM`, split as a command's arguments are, subscribes to that location. */
  lemma ArgumentsOfTwoWords(location: string, time: string)
    requires location != [] && NoSpace(location) && time != [] && NoSpace(time)
    ensures var args := SplitWords(location + " " + time); |args| == 2 && args[0] == location && args[1] == time
  {
    SplitTwoWords(location, time);
  }
}
