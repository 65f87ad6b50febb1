/** The bot's configuration, loaded once at start-up and never changed afterwards. */
module Entities {

  datatype Config = Config(discordBotToken: string, transferChannelID: string, triggerReactionEmoji: string)
}
